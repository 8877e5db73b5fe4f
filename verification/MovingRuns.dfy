/** Three objects that leave their node in one update: the third can cost the second its place in the tree. */
module MovingRuns {
  import opened Conservation
  import opened Division
  import opened Geometry
  import opened Layout
  import opened Objects
  import opened Octree
  import opened OctreeRuns
  import opened Outcomes
  import opened Sequences
  import opened Settling
  import opened Soundness
  import opened Updates
  import opened Visits
  import opened Wrappers

  // ---------- visits without divisions ----------

  lemma TwoKids(f: Facts, t: Tree, p: Path)
    requires Kids(t.spots, p) == {0, 1} && !Tiny(RegionAt(f.root, p))
    ensures KidsVisited(f, t, p, {0, 1}, 0) == Visited(f, Visited(f, t, p + [0]), p + [1])
  {
    hide RegionAt, Tiny, Visited;
    RegionBelow(f.root, p, 0);
    RegionBelow(f.root, p, 1);
    var flags: set<Corner> := {0, 1};
    var u := Visited(f, t, p + [0]);
    var v := Visited(f, u, p + [1]);
    KidsPassed(f, v, p, flags, 2);
    assert KidsVisited(f, u, p, flags, 1) == KidsVisited(f, v, p, flags, 2);
  }

  lemma KidsOfThree(t: Spots)
    requires t.Keys == {[], [0], [1]}
    ensures Kids(t, []) == {0, 1} && Leaf(t, [0]) && Leaf(t, [1])
  {
    assert forall k: Corner :: [] + [k] == [k];
    forall p: Path, k: Corner | p in {[0], [1]}
      ensures p + [k] !in t
    {
      assert |p + [k]| == 2;
    }
    var zero: Corner, one: Corner := 0, 1;
    assert [zero] in t && [one] in t;
  }

  /** The update of a root that stays as it is and has two children. */
  lemma PlainRoot(f: Facts, t: Tree, own: seq<GameObject>)
    requires [] in t.spots && t.spots[[]] in {Full(own), Full(own).(ready := false)} && Kids(t.spots, []) == {0, 1}
    requires own != [] && (forall o :: o in own ==> o !in f.marked && o !in t.dirty) && !Tiny(f.root)
    requires forall k: Corner :: [k] in t.spots ==> t.spots[[k]].lifespan != 0
    ensures Visited(f, t, []) == Visited(f, Visited(f, Tree(t.spots[[] := Full(own)], t.dirty), [0]), [1])
  {
    hide Tiny, Sends, KidsVisited, Prepared, Pruned, AllRelocated;
    assert forall k: Corner :: [] + [k] == [k];
    PlainBelow(f, t, [], own);
    WithinNone(own, t.dirty);
    var u := Tree(t.spots[[] := Full(own)], t.dirty);
    assert Below(f, t, []) == u;
    assert Kids(u.spots, []) == {0, 1};
    TwoKids(f, u, []);
    var v := KidsVisited(f, u, [], {0, 1}, 0);
    assert AllRelocated(f, v.spots, [], [], 0) == v.spots by { NoneRelocated(f, v.spots, []); }
  }

  // ---------- the boxes ----------

  const START := Box(Vec3(-4.0, -4.0, -4.0), Vec3(0.5, 0.5, 0.5))
  const OTHER := Box(Vec3(4.0, -4.0, -4.0), Vec3(0.5, 0.5, 0.5))
  const DEEP := Box(Vec3(1.0, -7.0, -7.0), Vec3(0.5, 0.5, 0.5))
  const ACROSS := Box(Vec3(2.0, -6.0, -6.0), Vec3(0.5, 0.5, 0.5))
  const SECOND := Box(Vec3(4.0, -4.0, -4.0), Vec3(4.0, 4.0, 4.0))
  const CELL := Box(Vec3(2.0, -6.0, -6.0), Vec3(2.0, 2.0, 2.0))

  lemma SecondOctant()
    ensures Octant(WIDE, 1) == SECOND
  {
    hide Octant;
    OctantShape(WIDE, 1);
  }

  lemma CellOctant()
    ensures Octant(SECOND, 0) == CELL
  {
    hide Octant;
    OctantShape(SECOND, 0);
  }

  lemma NoneTiny()
    ensures !Tiny(WIDE) && !Tiny(SECOND) && !Tiny(CELL)
  {}

  lemma Paths(root: Box)
    ensures RegionAt(root, []) == root
    ensures RegionAt(root, [0]) == Octant(root, 0) && RegionAt(root, [1]) == Octant(root, 1)
    ensures RegionAt(root, [1, 0]) == Octant(Octant(root, 1), 0)
  {
    hide Octant, Tiny;
    RegionBelow(root, [], 0);
    RegionBelow(root, [], 1);
    RegionBelow(root, [1], 0);
    assert [] + [0] == [0] && [] + [1] == [1] && [1] + [0] == [1, 0];
  }

  /** `START` lies across the centre of octant 0, `OTHER` in octant 1. */
  lemma StartFits()
    ensures WIDE.Contains(START) && Fit(WIDE, START, 0) == 0 && INNER.Contains(START) && Fit(INNER, START, 0) == 8
  {
    hide Octant;
    OctantShape(WIDE, 0);
    forall c: nat | c < 8
      ensures !Octant(INNER, c).Contains(START)
    {
      OctantShape(INNER, c);
    }
  }

  lemma OtherFits()
    ensures WIDE.Contains(OTHER) && Fit(WIDE, OTHER, 0) == 1 && SECOND.Contains(OTHER)
  {
    hide Octant;
    OctantShape(WIDE, 0);
    OctantShape(WIDE, 1);
  }

  /** `DEEP` lies in octant 0 of `CELL`, `ACROSS` across its centre. */
  lemma DeepFits()
    ensures forall b :: b in {DEEP, ACROSS} ==>
              WIDE.Contains(b) && Fit(WIDE, b, 0) == 1 && !INNER.Contains(b) && !b.IsPoint()
              && SECOND.Contains(b) && Fit(SECOND, b, 0) == 0 && CELL.Contains(b)
    ensures Fit(CELL, DEEP, 0) == 0 && Fit(CELL, ACROSS, 0) == 8
  {
    hide Octant;
    OctantShape(WIDE, 0);
    OctantShape(WIDE, 1);
    OctantShape(SECOND, 0);
    OctantShape(CELL, 0);
    forall c: nat | c < 8
      ensures !Octant(CELL, c).Contains(ACROSS)
    {
      OctantShape(CELL, c);
    }
  }

  lemma StartMoves()
    ensures DEEP == START.(center := DEEP.center) && ACROSS == START.(center := ACROSS.center)
    ensures DEEP != START && ACROSS != START && WIDE.Contains(DEEP)
  {}

  // ---------- the tree before the objects move ----------

  /** The queue of three objects across octant 0 and one in octant 1 enters a root that was visited. */
  lemma FourEntered(f: Facts, m: GameObject, a: GameObject, b: GameObject, c: GameObject, n: GameObject)
    requires f.root == WIDE && f.BoxOf(a) == f.BoxOf(b) == f.BoxOf(c) == START && f.BoxOf(n) == OTHER
    ensures Entered(f, map[[] := Full([m]).(queue := [a, b, c, n], ready := false)]) ==
            map[[] := Full([m]).(ready := false), [0] := NewSpot([a, b, c]), [1] := NewSpot([n])]
  {
    hide Fit, Octant, Tiny, RegionAt, WIDE, START, OTHER, INNER, SECOND, Box.Contains;
    Paths(WIDE);
    InnerOctant();
    SecondOctant();
    NoneTiny();
    StartFits();
    OtherFits();
    var list := [a, b, c, n];
    assert [] + [0] == [0] && [] + [1] == [1];
    assert [] + [a] == [a] && [a] + [b] == [a, b] && [a, b] + [c] == [a, b, c] && [] + [n] == [n];
    var s := map[[] := Full([m]).(ready := false)];
    var s1, s2 := s[[0] := NewSpot([a])], s[[0] := NewSpot([a, b])];
    var s3 := s[[0] := NewSpot([a, b, c])];
    var s4 := s3[[1] := NewSpot([n])];
    assert Dest(WIDE, s, [], START) == Some([0]);
    assert Dest(WIDE, s1, [0], START) == Some([0]);
    assert Dest(WIDE, s1, [], START) == Some([0]);
    assert Dest(WIDE, s2, [0], START) == Some([0]);
    assert Dest(WIDE, s2, [], START) == Some([0]);
    assert Dest(WIDE, s3, [], OTHER) == Some([1]);
    assert Inserted(f, s, [], a) == s1 && Inserted(f, s1, [], b) == s2;
    assert Inserted(f, s2, [], c) == s3 && Inserted(f, s3, [], n) == s4;
    assert AllInserted(f, s3, [], list, 3) == s4;
    assert AllInserted(f, s2, [], list, 2) == s4;
    assert AllInserted(f, s1, [], list, 1) == s4;
    assert AllInserted(f, s, [], list, 0) == s4;
    var t := map[[] := Full([m]).(queue := list, ready := false)];
    assert t[[] := At(t, []).(queue := [])] == s;
  }

  /** Objects across octant 0 stay at its node, and one object alone at its own. */
  lemma NoneSent(f: Facts, t: Spots, a: GameObject, b: GameObject, c: GameObject, n: GameObject)
    requires f.root == WIDE && f.BoxOf(a) == f.BoxOf(b) == f.BoxOf(c) == START && f.BoxOf(n) == OTHER
    requires At(t, [0]).objects == [a, b, c] && At(t, [1]).objects == [n]
    ensures Sends(f, t, [0]) == {} && Sends(f, t, [1]) == {}
  {
    hide Fit, Octant, Tiny, RegionAt, WIDE, START, OTHER, INNER, SECOND, Box.Contains;
    Paths(WIDE);
    InnerOctant();
    SecondOctant();
    StartFits();
    OtherFits();
    forall o | o in [a, b, c]
      ensures Target(f, INNER, o) == 8
    {}
  }

  /** The update with which the four enter: three are at `[0]` then, one at `[1]`. */
  lemma FourVisited(f: Facts, t: Tree, m: GameObject, a: GameObject, b: GameObject, c: GameObject, n: GameObject)
    requires f.root == WIDE && f.BoxOf(a) == f.BoxOf(b) == f.BoxOf(c) == START && f.BoxOf(n) == OTHER
    requires {m, a, b, c, n} !! f.marked && Sound(f.root, t.spots)
    requires t == Tree(map[[] := Full([m]).(queue := [a, b, c, n], ready := false)], {})
    ensures Visited(f, t, []) == Tree(map[[] := Full([m]), [0] := Full([a, b, c]), [1] := Full([n])], {})
  {
    hide Sound, Octant, Tiny, RegionAt, WIDE, START, OTHER, Visited, Entered, Sends, AllRelocated;
    FourEntered(f, m, a, b, c, n);
    StartsEntered(f, t);
    NoneTiny();
    var e := Tree(map[[] := Full([m]).(ready := false), [0] := NewSpot([a, b, c]), [1] := NewSpot([n])], {});
    KidsOfThree(e.spots);
    PlainRoot(f, e, [m]);
    var u := Tree(map[[] := Full([m]), [0] := NewSpot([a, b, c]), [1] := NewSpot([n])], {});
    assert e.spots[[] := Full([m])] == u.spots;
    NoneSent(f, u.spots, a, b, c, n);
    KidsOfThree(u.spots);
    PlainLeaf(f, u, [0], [a, b, c]);
    WithinNone([a, b, c], {});
    var v := Tree(map[[] := Full([m]), [0] := Full([a, b, c]), [1] := NewSpot([n])], {});
    assert u.spots[[0] := Full([a, b, c])] == v.spots;
    NoneRelocated(f, v.spots, [0]);
    NoneSent(f, v.spots, a, b, c, n);
    KidsOfThree(v.spots);
    PlainLeaf(f, v, [1], [n]);
    WithinNone([n], {});
    assert Elems<GameObject>([]) == {};
    assert Visited(f, u, [0]) == v;
    var w := map[[] := Full([m]), [0] := Full([a, b, c]), [1] := Full([n])];
    assert v.spots[[1] := Full([n])] == w;
    NoneRelocated(f, w, [1]);
  }

  // ---------- the update after they moved ----------

  /** The three go into octant 1: a new node for the first, one below it for the second, the third joins the first. */
  lemma ThreeRelocated(f: Facts, m: GameObject, a: GameObject, b: GameObject, c: GameObject, n: GameObject)
    requires f.root == WIDE && f.BoxOf(a) == f.BoxOf(b) == DEEP && f.BoxOf(c) == ACROSS && a != b && a != c && b != c
    ensures AllRelocated(f, map[[] := Full([m]), [0] := Full([a, b, c]), [1] := Full([n])], [0], [a, b, c], 0) ==
            map[[] := Full([m]), [0] := Full([]), [1] := Full([n]), [1, 0] := NewSpot([a, c]),
                [1, 0, 0] := NewSpot([b])]
  {
    hide Relocated, WIDE, DEEP, ACROSS;
    var list := [a, b, c];
    var s := map[[] := Full([m]), [0] := Full([a, b, c]), [1] := Full([n])];
    var s1 := map[[] := Full([m]), [0] := Full([b, c]), [1] := Full([n]), [1, 0] := NewSpot([a])];
    var s2 := map[[] := Full([m]), [0] := Full([c]), [1] := Full([n]), [1, 0] := NewSpot([a]),
                  [1, 0, 0] := NewSpot([b])];
    var s3 := map[[] := Full([m]), [0] := Full([]), [1] := Full([n]), [1, 0] := NewSpot([a, c]),
                  [1, 0, 0] := NewSpot([b])];
    FirstMoves(f, m, a, b, c, n);
    SecondMoves(f, m, a, b, c, n);
    ThirdMoves(f, m, a, b, c, n);
    assert AllRelocated(f, s3, [0], list, 3) == s3;
    assert AllRelocated(f, s2, [0], list, 2) == s3;
    assert AllRelocated(f, s1, [0], list, 1) == s3;
  }

  /** From `[0]` such an object climbs to the root. */
  lemma ClimbsToRoot(f: Facts, o: GameObject)
    requires f.root == WIDE && f.BoxOf(o) in {DEEP, ACROSS}
    ensures Climbed(f.root, [0], f.BoxOf(o)) == []
  {
    hide Octant, WIDE, DEEP, ACROSS, INNER, Box.Contains, Box.IsPoint;
    Paths(WIDE);
    InnerOctant();
    DeepFits();
    assert Up([0]) == [];
  }

  lemma FirstMoves(f: Facts, m: GameObject, a: GameObject, b: GameObject, c: GameObject, n: GameObject)
    requires f.root == WIDE && f.BoxOf(a) == DEEP && a != b && a != c && b != c
    ensures Relocated(f, map[[] := Full([m]), [0] := Full([a, b, c]), [1] := Full([n])], [0], a) ==
            map[[] := Full([m]), [0] := Full([b, c]), [1] := Full([n]), [1, 0] := NewSpot([a])]
  {
    hide Fit, Octant, Tiny, RegionAt, WIDE, DEEP, ACROSS, SECOND, CELL, Box.Contains, Climbed;
    Paths(WIDE);
    SecondOctant();
    NoneTiny();
    DeepFits();
    ClimbsToRoot(f, a);
    assert [] + [1] == [1] && [1] + [0] == [1, 0] && [] + [a] == [a];
    var s := map[[] := Full([m]), [0] := Full([a, b, c]), [1] := Full([n])];
    var v := map[[] := Full([m]), [0] := Full([b, c]), [1] := Full([n])];
    assert Without([a, b, c], a) == [b, c];
    assert s[[0] := Full([b, c])] == v;
    assert Dest(WIDE, v, [1], DEEP) == Some([1, 0]);
    assert Dest(WIDE, v, [], DEEP) == Some([1, 0]);
    assert Put(v, [1, 0], a) ==
           map[[] := Full([m]), [0] := Full([b, c]), [1] := Full([n]), [1, 0] := NewSpot([a])];
  }

  lemma SecondMoves(f: Facts, m: GameObject, a: GameObject, b: GameObject, c: GameObject, n: GameObject)
    requires f.root == WIDE && f.BoxOf(b) == DEEP && a != b && a != c && b != c
    ensures Relocated(f, map[[] := Full([m]), [0] := Full([b, c]), [1] := Full([n]), [1, 0] := NewSpot([a])], [0], b) ==
            map[[] := Full([m]), [0] := Full([c]), [1] := Full([n]), [1, 0] := NewSpot([a]), [1, 0, 0] := NewSpot([b])]
  {
    hide Fit, Octant, Tiny, RegionAt, WIDE, DEEP, ACROSS, SECOND, CELL, Box.Contains, Climbed;
    Paths(WIDE);
    SecondOctant();
    CellOctant();
    NoneTiny();
    DeepFits();
    ClimbsToRoot(f, b);
    assert [] + [1] == [1] && [1] + [0] == [1, 0] && [1, 0] + [0] == [1, 0, 0] && [] + [b] == [b];
    var s := map[[] := Full([m]), [0] := Full([b, c]), [1] := Full([n]), [1, 0] := NewSpot([a])];
    var v := map[[] := Full([m]), [0] := Full([c]), [1] := Full([n]), [1, 0] := NewSpot([a])];
    assert Without([b, c], b) == [c];
    assert s[[0] := Full([c])] == v;
    assert Dest(WIDE, v, [1, 0], DEEP) == Some([1, 0, 0]);
    assert Dest(WIDE, v, [1], DEEP) == Some([1, 0, 0]);
    assert Dest(WIDE, v, [], DEEP) == Some([1, 0, 0]);
    assert Put(v, [1, 0, 0], b) == map[[] := Full([m]), [0] := Full([c]), [1] := Full([n]), [1, 0] := NewSpot([a]),
                                       [1, 0, 0] := NewSpot([b])];
  }

  lemma ThirdMoves(f: Facts, m: GameObject, a: GameObject, b: GameObject, c: GameObject, n: GameObject)
    requires f.root == WIDE && f.BoxOf(c) == ACROSS && a != b && a != c && b != c
    ensures Relocated(f, map[[] := Full([m]), [0] := Full([c]), [1] := Full([n]), [1, 0] := NewSpot([a]),
                             [1, 0, 0] := NewSpot([b])], [0], c) ==
            map[[] := Full([m]), [0] := Full([]), [1] := Full([n]), [1, 0] := NewSpot([a, c]),
                [1, 0, 0] := NewSpot([b])]
  {
    hide Fit, Octant, Tiny, RegionAt, WIDE, DEEP, ACROSS, SECOND, CELL, Box.Contains, Climbed;
    Paths(WIDE);
    SecondOctant();
    CellOctant();
    NoneTiny();
    DeepFits();
    ClimbsToRoot(f, c);
    assert [] + [1] == [1] && [1] + [0] == [1, 0] && [a] + [c] == [a, c];
    var s := map[[] := Full([m]), [0] := Full([c]), [1] := Full([n]), [1, 0] := NewSpot([a]),
                 [1, 0, 0] := NewSpot([b])];
    var v := map[[] := Full([m]), [0] := Full([]), [1] := Full([n]), [1, 0] := NewSpot([a]), [1, 0, 0] := NewSpot([b])];
    assert Without([c], c) == [];
    assert s[[0] := Full([])] == v;
    assert Dest(WIDE, v, [1, 0], ACROSS) == Some([1, 0]);
    assert Dest(WIDE, v, [1], ACROSS) == Some([1, 0]);
    assert Dest(WIDE, v, [], ACROSS) == Some([1, 0]);
    assert Put(v, [1, 0], c) == map[[] := Full([m]), [0] := Full([]), [1] := Full([n]), [1, 0] := NewSpot([a, c]),
                                    [1, 0, 0] := NewSpot([b])];
  }

  /** When octant 1 is visited then, the first visit of `[1, 0]` replaces the node below it. */
  lemma SecondReplaced(f: Facts, w: Spots, m: GameObject, a: GameObject, b: GameObject, c: GameObject, n: GameObject)
    requires f.root == WIDE && f.BoxOf(a) == DEEP && b !in {m, a, c, n}
    requires w == map[[] := Full([m]), [0] := Full([]), [1] := Full([n]), [1, 0] := NewSpot([a, c]),
                      [1, 0, 0] := NewSpot([b])]
    ensures !Kept(f, w, [1], b, false) && forall q :: q in w && !([1] <= q) ==> b !in w[q].objects
  {
    hide Fit, Octant, Tiny, RegionAt, WIDE, DEEP, ACROSS, SECOND, CELL, Box.Contains, Box.IsPoint;
    Paths(WIDE);
    SecondOctant();
    CellOctant();
    NoneTiny();
    DeepFits();
    assert Target(f, CELL, a) == 0;
    assert a in [a, c] && 0 in Aims(f, CELL, [a, c]);
    assert 0 in Sends(f, w, [1, 0]);
    assert [1, 0, 0][..2] == [1, 0];
    assert 0 in Perils(f, w, [1, 0, 0][..2], false);
    assert !Spared(f, w, [1], [1, 0, 0], false);
    assert [1] <= [1, 0] && [1] <= [1, 0, 0];
  }

  /**
    A fully built tree with an empty queue, three objects of which have moved to another octant: after the update the
    second is not in the tree, though it is not marked and lies in the root's region.
   */
  lemma ThreeMoveUpdate(f: Facts, t: Tree, m: GameObject, a: GameObject, b: GameObject, c: GameObject, n: GameObject)
    requires f.root == WIDE && f.BoxOf(a) == f.BoxOf(b) == DEEP && f.BoxOf(c) == ACROSS
    requires a != b && a != c && b != c && {m, n} !! {a, b, c} && {m, a, b, c, n} !! f.marked
    requires t == Tree(map[[] := Full([m]), [0] := Full([a, b, c]), [1] := Full([n])], {a, b, c})
    requires Sound(f.root, t.spots)
    ensures var u := Visited(f, t, []); b !in All(u.spots) && u.dirty == {}
  {
    hide Octant, Tiny, RegionAt, WIDE, DEEP, ACROSS, Visited, Box.Contains, Box.NonNegative, Kept, Under, Sound;
    InnerOctant();
    NoneTiny();
    KidsOfThree(t.spots);
    PlainRoot(f, t, [m]);
    assert t.spots[[] := Full([m])] == t.spots;
    FirstVisited(f, t, m, a, b, c, n);
    var w := Visited(f, t, [0]);
    VisitedKeeps(f, t, [0]);
    SecondReplaced(f, w.spots, m, a, b, c, n);
    CleanSettled(f, w, [1]);
    VisitedSettled(f, w, [1], {b});
    VisitedOnly(f, w, [1]);
    OnlyThere(w.spots, Visited(f, w, [1]).spots, b);
  }

  lemma FirstVisited(f: Facts, t: Tree, m: GameObject, a: GameObject, b: GameObject, c: GameObject, n: GameObject)
    requires f.root == WIDE && f.BoxOf(a) == f.BoxOf(b) == DEEP && f.BoxOf(c) == ACROSS
    requires a != b && a != c && b != c && {a, b, c} !! f.marked
    requires t == Tree(map[[] := Full([m]), [0] := Full([a, b, c]), [1] := Full([n])], {a, b, c})
    ensures Visited(f, t, [0]) ==
            Tree(map[[] := Full([m]), [0] := Full([]), [1] := Full([n]), [1, 0] := NewSpot([a, c]),
                     [1, 0, 0] := NewSpot([b])], {})
  {
    hide WIDE, DEEP, ACROSS, Visited, AllRelocated;
    KidsOfThree(t.spots);
    PlainLeaf(f, t, [0], [a, b, c]);
    NoDupThree(a, b, c);
    WithinMembers([a, b, c], t.dirty);
    assert t.spots[[0] := Full([a, b, c])] == t.spots;
    ThreeRelocated(f, m, a, b, c, n);
  }

  lemma CleanSettled(f: Facts, t: Tree, p: Path)
    requires t.dirty == {}
    ensures Settled(f, t, p)
  {}

  lemma OnlyThere(w: Spots, u: Spots, o: GameObject)
    requires SameOutside(w, u, [1]) && o !in Under(u, [1])
    requires forall q :: q in w && !([1] <= q) ==> o !in w[q].objects
    ensures o !in All(u)
  {}

  // ---------- the run ----------

  /**
    The same as a run: after two updates every node is built and the queue is empty, three objects move inside the
    root's region, and a third update loses one of them.
   */
  method ThreeMovesLoseOne() returns (tree: OctTree, victim: GameObject)
    ensures tree.Attached() && tree.path == [] && tree.space.Valid()
    ensures victim in tree.space.known && !victim.marked && !victim.dirty && tree.region.Contains(victim.box)
    ensures victim !in All(tree.space.spots) && victim !in tree.queue
  {
    hide Space.Valid, Space.Shape, Space.Contents, Visited, Conserves, WIDE, START, DEEP, ACROSS, Box.Contains, Sound,
      InPlace, All;
    var m, a, c, n;
    tree, m, a, victim, c, n := ThreeMoved();
    Mirrors(tree);
    StartMoves();
    ThreeMoveUpdate(tree.space.Look(), tree.space.Now(), m, a, victim, c, n);
    tree.UpdateRoot();
    assert victim !in tree.space.Dirty();
  }

  lemma NoDupFour(a: GameObject, b: GameObject, c: GameObject, d: GameObject)
    requires a != b && a != c && a != d && b != c && b != d && c != d
    ensures NoDup([a, b, c, d]) && Elems([a, b, c, d]) == {a, b, c, d}
  {
    NoDupThree(a, b, c);
    assert [a, b, c, d] == [a, b, c] + [d];
  }

  /** Four new objects, queued. */
  method FourMore(tree: OctTree) returns (a: GameObject, b: GameObject, c: GameObject, n: GameObject)
    requires tree.Attached() && tree.path == [] && tree.space.Valid() && tree.queue == []
    modifies tree`queue, tree`ready, tree.space`spots, tree.space`known
    ensures fresh({a, b, c, n}) && a != b && a != c && a != n && b != c && b != n && c != n
    ensures tree.space.Valid() && tree.space.known == old(tree.space.known) + {a, b, c, n}
    ensures tree.space.spots == old(tree.space.spots)[[] := old(tree.Value()).(queue := [a, b, c, n], ready := false)]
    ensures a.box == b.box == c.box == START && n.box == OTHER
    ensures forall o :: o in {a, b, c, n} ==> !o.dirty && !o.marked
  {
    hide Space.Valid, Space.Shape, Space.Contents, NoDup, START, OTHER, All, Sound, RegionAt;
    Mirrors(tree);
    tree.space.Mirrored();
    a := new GameObject(START, 0);
    b := new GameObject(START, 0);
    c := new GameObject(START, 0);
    n := new GameObject(OTHER, 0);
    NoDupFour(a, b, c, n);
    EnqueueAll(tree, [a, b, c, n]);
  }

  /** A root with one object, and four in its queue. */
  method FourQueued()
    returns (tree: OctTree, m: GameObject, a: GameObject, b: GameObject, c: GameObject, n: GameObject)
    ensures fresh(tree) && fresh(tree.space) && fresh(tree.space.nodes.Values) && fresh({m, a, b, c, n})
    ensures tree.Attached() && tree.path == [] && tree.region == tree.space.root == WIDE && tree.space.Valid()
    ensures tree.space.spots == map[[] := Full([m]).(queue := [a, b, c, n], ready := false)]
    ensures tree.space.known == {m, a, b, c, n} && m != a && m != b && m != c && m != n
    ensures a != b && a != c && a != n && b != c && b != n && c != n
    ensures a.box == b.box == c.box == START && n.box == OTHER
    ensures forall o :: o in tree.space.known ==> !o.dirty && !o.marked
  {
    hide Space.Valid, Space.Shape, Space.Contents, NoDup, WIDE, MIDDLE, START, OTHER;
    m := new GameObject(MIDDLE, 0);
    NoDupOne(m);
    tree := RootWith([m]);
    Mirrors(tree);
    a, b, c, n := FourMore(tree);
  }

  /** ... and after the update with which they enter. */
  method FourListed()
    returns (tree: OctTree, m: GameObject, a: GameObject, b: GameObject, c: GameObject, n: GameObject)
    ensures fresh(tree) && fresh(tree.space) && fresh(tree.space.nodes.Values) && fresh({m, a, b, c, n})
    ensures tree.Attached() && tree.path == [] && tree.region == tree.space.root == WIDE && tree.space.Valid()
    ensures tree.space.spots == map[[] := Full([m]), [0] := Full([a, b, c]), [1] := Full([n])]
    ensures tree.space.known == {m, a, b, c, n} && m != a && m != b && m != c && m != n
    ensures a != b && a != c && a != n && b != c && b != n && c != n
    ensures a.box == b.box == c.box == START
    ensures forall o :: o in tree.space.known ==> !o.dirty && !o.marked
  {
    hide Space.Valid, Space.Shape, Space.Contents, Visited, Conserves, WIDE, START, OTHER, Sound, InPlace, All;
    tree, m, a, b, c, n := FourQueued();
    Mirrors(tree);
    assert tree.space.Dirty() == {};
    FourVisited(tree.space.Look(), tree.space.Now(), m, a, b, c, n);
    tree.UpdateRoot();
    Mirrors(tree);
    assert forall o :: o in tree.space.known ==> o !in tree.space.Dirty();
  }

  /** The tree before that update. */
  method ThreeMoved()
    returns (tree: OctTree, m: GameObject, a: GameObject, b: GameObject, c: GameObject, n: GameObject)
    ensures fresh(tree) && fresh(tree.space) && fresh(tree.space.nodes.Values) && fresh({m, a, b, c, n})
    ensures tree.Attached() && tree.path == [] && tree.region == tree.space.root == WIDE && tree.space.Valid()
    ensures tree.space.Now() == Tree(map[[] := Full([m]), [0] := Full([a, b, c]), [1] := Full([n])], {a, b, c})
    ensures tree.space.known == {m, a, b, c, n} && {m, n} !! {a, b, c} && a != b && a != c && b != c
    ensures a.box == b.box == DEEP && c.box == ACROSS && forall o :: o in tree.space.known ==> !o.marked
  {
    hide Space.Valid, Space.Shape, Space.Contents, NoDup, WIDE, MIDDLE, START, OTHER, DEEP, ACROSS, Sound, InPlace;
    tree, m, a, b, c, n := FourListed();
    StartMoves();
    label Before:
    a.SetPosition(DEEP.center);
    b.SetPosition(DEEP.center);
    c.SetPosition(ACROSS.center);
    tree.space.MovesAreHarmless@Before();
  }
}
