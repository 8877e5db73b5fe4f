/** Runs of updates in each of which at most one object comes or moves: they never lose one. */
module OneByOne {
  import opened Division
  import opened Geometry
  import opened Layout
  import opened Moving
  import opened Objects
  import opened Outcomes
  import opened Sequences
  import opened Settling
  import opened Soundness
  import opened Updates
  import opened Visits
  import opened Wrappers

  // ---------- what one moved object leaves unbuilt ----------

  /** A leaf that holds this object alone. */
  ghost predicate Sole(t: Spots, q: Path, x: GameObject) {
    Leaf(t, q) && At(t, q).objects == [x]
  }

  /** Of the listed objects only `x` is, at the node at `p` or below. */
  ghost predicate OnlyAt(f: Facts, t: Tree, p: Path, x: GameObject) {
    forall q, o :: q in t.spots && o in t.spots[q].objects && Stirred(f, t, o) ==> o == x && p <= q
  }

  ghost predicate NoneStirred(f: Facts, t: Tree) {
    forall q, o :: q in t.spots && o in t.spots[q].objects ==> !Stirred(f, t, o)
  }

  /** Unbuilt are only nodes that hold `x` alone, and outside `p` those that were. */
  ghost predicate Leaves(t: Spots, u: Spots, p: Path, x: GameObject) {
    forall q :: q in u && !u[q].built ==> Sole(u, q, x) || (!(p <= q) && q in t && !t[q].built)
  }

  /** While the children from `c` on are not visited yet: unbuilt nodes are below them or hold `x` alone. */
  ghost predicate LeavesUpTo(t: Spots, p: Path, flags: set<Corner>, c: nat, x: GameObject) {
    forall q :: q in t && p <= q && !t[q].built ==> Sole(t, q, x) || (q != p && c <= q[|p|] && q[|p|] in flags)
  }

  /** ... and `x`, if it is stirred still, is below one of them. */
  ghost predicate AtUpTo(f: Facts, t: Tree, p: Path, flags: set<Corner>, c: nat, x: GameObject) {
    forall q, o :: q in t.spots && o in t.spots[q].objects && Stirred(f, t, o) ==>
      o == x && p <= q && q != p && c <= q[|p|] && q[|p|] in flags
  }

  /** A subtree without stirred objects is built by its visit, and nothing else changes. */
  lemma StillVisit(f: Facts, t: Tree, p: Path)
    requires Sound(f.root, t.spots) && p in t.spots && t.spots[p].queue == [] && f.root.NonNegative()
    requires forall q, o :: q in t.spots && p <= q && o in t.spots[q].objects ==> !Stirred(f, t, o)
    ensures var u := Visited(f, t, p);
            && SameOutside(t.spots, u.spots, p) && u.dirty <= t.dirty
            && forall q :: q in u.spots && p <= q ==> u.spots[q].built
  {
    hide Sound, Visited, Returns, Box.NonNegative;
    assert Rests(f, t, p);
    RestsSettled(f, t, p);
    VisitedSettled(f, t, p, {});
    VisitedBuilds(f, t, p);
    VisitedOnly(f, t, p);
  }

  /** After the visit of the node at `p` nothing at all is stirred, if only objects there were. */
  lemma NoneLeft(f: Facts, t: Tree, p: Path, x: GameObject)
    requires Sound(f.root, t.spots) && p in t.spots && OnlyAt(f, t, p, x)
    ensures NoneStirred(f, Visited(f, t, p))
  {
    hide Sound, Visited;
    var u := Visited(f, t, p);
    VisitedTidy(f, t, p);
    VisitedOnly(f, t, p);
    forall q, o | q in u.spots && o in u.spots[q].objects
      ensures !Stirred(f, u, o)
    {
      assert Stirred(f, u, o) ==> Bad(f, u, o) && Stirred(f, t, o);
    }
  }

  lemma StillNone(f: Facts, t: Tree, p: Path)
    requires Sound(f.root, t.spots) && p in t.spots
    ensures var u := Visited(f, t, p);
            forall q, o :: q in u.spots && p <= q && o in u.spots[q].objects ==> !Stirred(f, u, o)
  {
    hide Sound, Visited;
    var u := Visited(f, t, p);
    VisitedTidy(f, t, p);
    forall q, o | q in u.spots && p <= q && o in u.spots[q].objects
      ensures !Stirred(f, u, o)
    {
      assert !Bad(f, u, o);
    }
  }

  lemma SoleHolds(t: Spots, q: Path, x: GameObject)
    requires q in t && Sole(t, q, x)
    ensures x in t[q].objects
  {
    assert t[q].objects[0] == x;
  }

  lemma SoundUnique(root: Box, t: Spots)
    requires Sound(root, t)
    ensures Unique(t)
  {}

  lemma SoleStays(t: Spots, v: Spots, p: Path, q: Path, x: GameObject)
    requires SameOutside(t, v, p) && !(p <= q) && p != [] && q != Up(p) && q in t && Sole(t, q, x)
    ensures Sole(v, q, x)
  {
    forall k: Corner
      ensures q + [k] !in v
    {
      PrefixOrWhole(p, q, k);
      assert Up(q + [k]) == q;
    }
  }

  /** A child without stirred objects is visited. */
  lemma StillStep(f: Facts, t: Tree, v: Tree, p: Path, flags: set<Corner>, c: Corner, x: GameObject)
    requires LeavesUpTo(t.spots, p, flags, c, x) && AtUpTo(f, t, p, flags, c, x) && p in t.spots && t.spots[p].built
    requires SameOutside(t.spots, v.spots, p + [c]) && v.dirty <= t.dirty
    requires forall q :: q in v.spots && p + [c] <= q ==> v.spots[q].built
    requires forall q, o :: q in t.spots && p + [c] <= q && o in t.spots[q].objects ==> !Stirred(f, t, o)
    requires forall q, o :: q in v.spots && p + [c] <= q && o in v.spots[q].objects ==> !Stirred(f, v, o)
    ensures LeavesUpTo(v.spots, p, flags, c + 1, x) && AtUpTo(f, v, p, flags, c + 1, x)
  {
    hide Sole;
    assert Up(p + [c]) == p;
    forall q | q in v.spots && p <= q && !v.spots[q].built
      ensures Sole(v.spots, q, x) || (q != p && c + 1 <= q[|p|] && q[|p|] in flags)
    {
      UnderCorner(p, c, q);
      assert !(p + [c] <= q) && q in t.spots && !t.spots[q].built;
      if Sole(t.spots, q, x) { SoleStays(t.spots, v.spots, p + [c], q, x); }
    }
    forall q, o | q in v.spots && o in v.spots[q].objects && Stirred(f, v, o)
      ensures o == x && p <= q && q != p && c + 1 <= q[|p|] && q[|p|] in flags
    {
      UnderCorner(p, c, q);
      assert q in t.spots && o in t.spots[q].objects && Stirred(f, t, o);
    }
  }

  /** The child with the object is visited. */
  lemma MovedStep(f: Facts, t: Tree, v: Tree, p: Path, flags: set<Corner>, c: Corner, x: GameObject, r: Path)
    requires LeavesUpTo(t.spots, p, flags, c, x) && Unique(t.spots) && p in t.spots && t.spots[p].built
    requires r in t.spots && p + [c] <= r && x in t.spots[r].objects
    requires Leaves(t.spots, v.spots, p + [c], x) && NoneStirred(f, v) && p in v.spots && v.spots[p].built
    ensures LeavesUpTo(v.spots, p, flags, c + 1, x) && AtUpTo(f, v, p, flags, c + 1, x)
  {
    hide NoDup, Stirred;
    forall q | q in v.spots && p <= q && !v.spots[q].built
      ensures Sole(v.spots, q, x) || (q != p && c + 1 <= q[|p|] && q[|p|] in flags)
    {
      UnderCorner(p, c, q);
      if Sole(t.spots, q, x) && !(p + [c] <= q) { SoleHolds(t.spots, q, x); }
    }
  }

  lemma KidsDone(f: Facts, t: Tree, p: Path, flags: set<Corner>, x: GameObject)
    requires LeavesUpTo(t.spots, p, flags, 8, x) && AtUpTo(f, t, p, flags, 8, x)
    ensures Leaves(t.spots, t.spots, p, x) && NoneStirred(f, t) && SameOutside(t.spots, t.spots, p)
  {
    hide Stirred, Sole;
    forall q: Path | p <= q && q != p
      ensures q[|p|] < 8
    {
      var c: Corner := q[|p|];
    }
  }

  lemma SkipStep(f: Facts, t: Tree, p: Path, flags: set<Corner>, c: Corner, x: GameObject)
    requires LeavesUpTo(t.spots, p, flags, c, x) && AtUpTo(f, t, p, flags, c, x) && Branched(f.root, t.spots)
    requires c !in flags || Tiny(RegionAt(f.root, p))
    ensures LeavesUpTo(t.spots, p, flags, c + 1, x) && AtUpTo(f, t, p, flags, c + 1, x)
  {
    hide Stirred, Sole, RegionAt, Tiny;
    forall q | q in t.spots && p <= q && q != p
      ensures !Tiny(RegionAt(f.root, p))
    {
      PrefixIn(f.root, t.spots, q, |p|);
      assert q[..|p|] == p;
    }
  }

  /** There is no other, and it is nowhere else. */
  lemma ItIs(f: Facts, t: Tree, p: Path, flags: set<Corner>, c: Corner, x: GameObject, q: Path, o: GameObject)
    requires AtUpTo(f, t, p, flags, c, x) && Unique(t.spots)
    requires q in t.spots && p + [c] <= q && o in t.spots[q].objects && Stirred(f, t, o)
    ensures o == x && OnlyAt(f, t, p + [c], x) && !NoneStirred(f, t)
  {
    hide Stirred, NoDup;
  }

  lemma NoneOnly(f: Facts, t: Tree, p: Path, x: GameObject)
    requires NoneStirred(f, t)
    ensures OnlyAt(f, t, p, x)
  {}

  lemma LeavesJoin(root: Box, t: Spots, v: Spots, w: Spots, p: Path, c: Corner, x: GameObject)
    requires Leaves(t, v, p + [c], x) && Leaves(v, w, p, x) && SameOutside(v, w, p) && p in v && Branched(root, v)
    ensures Leaves(t, w, p, x)
  {
    hide Sole, Tiny, RegionAt;
    forall q | q in w && !w[q].built
      ensures Sole(w, q, x) || (!(p <= q) && q in t && !t[q].built)
    {
      if !Sole(w, q, x) && Sole(v, q, x) { SoleAbove(root, v, w, p, q, x); }
    }
  }

  lemma SoleAbove(root: Box, v: Spots, w: Spots, p: Path, q: Path, x: GameObject)
    requires SameOutside(v, w, p) && !(p <= q) && p in v && Branched(root, v) && q in v && Sole(v, q, x)
    ensures Sole(w, q, x)
  {
    if p != [] {
      assert p == Up(p) + [Last(p)];
      assert q != Up(p);
      SoleStays(v, w, p, q, x);
    }
  }

  lemma LeavesStill(t: Spots, v: Spots, w: Spots, p: Path, c: Corner, x: GameObject)
    requires SameOutside(t, v, p + [c]) && Leaves(v, w, p, x)
    ensures Leaves(t, w, p, x)
  {
    hide Sole;
    forall q | q in v && !(p <= q)
      ensures !(p + [c] <= q)
    {
      UnderCorner(p, c, q);
    }
  }

  lemma LeavesBelow(t: Spots, u: Spots, v: Spots, p: Path, x: GameObject)
    requires SameOutside(t, u, p) && Leaves(u, v, p, x)
    ensures Leaves(t, v, p, x)
  {
    hide Sole;
  }

  lemma {:induction false} KidsSole(f: Facts, t: Tree, p: Path, flags: set<Corner>, c: nat, x: GameObject)
    requires Sound(f.root, t.spots) && p in t.spots && t.spots[p].built && c <= 8 && f.root.NonNegative()
    requires forall k :: k in flags && c <= k ==> p + [k] in t.spots
    requires LeavesUpTo(t.spots, p, flags, c, x) && AtUpTo(f, t, p, flags, c, x)
    ensures var u := KidsVisited(f, t, p, flags, c);
            && Leaves(t.spots, u.spots, p, x) && NoneStirred(f, u)
            && (NoneStirred(f, t) ==> SameOutside(t.spots, u.spots, p))
    decreases Level(RegionAt(f.root, p)), 8 - c
  {
    hide Branched, Unique, Lives, Queued, Visited, Stirred, Sole, Grows, RegionAt, Tiny, Leaves, LeavesUpTo, AtUpTo,
      NoneStirred, OnlyAt, SameOutside, Box.NonNegative;
    if c == 8 {
      KidsDone(f, t, p, flags, x);
    } else if c !in flags || Tiny(RegionAt(f.root, p)) {
      SkipStep(f, t, p, flags, c, x);
      KidsSole(f, t, p, flags, c + 1, x);
    } else {
      RegionBelow(f.root, p, c);
      var r := p + [c];
      var v := Visited(f, t, r);
      VisitedKeeps(f, t, r);
      ReadyMeans(f.root, t.spots, r);
      KidGrows(t.spots, v.spots, p, flags, c);
      if q, o :| q in t.spots && r <= q && o in t.spots[q].objects && Stirred(f, t, o) {
        ItIs(f, t, p, flags, c, x, q, o);
        VisitedSole(f, t, r, x);
        MovedStep(f, t, v, p, flags, c, x, q);
        KidsSole(f, v, p, flags, c + 1, x);
        LeavesJoin(f.root, t.spots, v.spots, KidsVisited(f, v, p, flags, c + 1).spots, p, c, x);
      } else {
        StillVisit(f, t, r);
        StillNone(f, t, r);
        StillStep(f, t, v, p, flags, c, x);
        if NoneStirred(f, t) {
          NoneOnly(f, t, r, x);
          NoneLeft(f, t, r, x);
        }
        KidsSole(f, v, p, flags, c + 1, x);
        LeavesStill(t.spots, v.spots, KidsVisited(f, v, p, flags, c + 1).spots, p, c, x);
        if NoneStirred(f, t) {
          OutsideJoins(t.spots, v.spots, KidsVisited(f, v, p, flags, c + 1).spots, p, c);
        }
      }
    }
  }

  lemma BelowStirred(f: Facts, t: Tree, p: Path, x: GameObject)
    requires Sound(f.root, t.spots) && p in t.spots && t.spots[p].queue == [] && OnlyAt(f, t, p, x)
    ensures var u := Below(f, t, p);
            forall q, o :: q in u.spots && o in u.spots[q].objects && o in t.dirty - f.marked ==> o == x && p <= q
  {
    hide Sound, Below;
    var u := Below(f, t, p);
    BelowOnly(f, t, p);
    OnlyMore(t.spots, u.spots, Elems(t.spots[p].queue), {});
    BelowOutside(f, t, p);
    forall q, o | q in u.spots && o in u.spots[q].objects && o in t.dirty - f.marked
      ensures o == x && p <= q
    {
      assert o in All(t.spots) && Stirred(f, t, o);
      var r :| r in t.spots && o in t.spots[r].objects;
    }
  }

  lemma BelowMoved(f: Facts, t: Tree, p: Path, x: GameObject)
    requires Sound(f.root, t.spots) && p in t.spots && t.spots[p].queue == [] && OnlyAt(f, t, p, x)
    ensures var moved := Moved(Tree(Prepared(f, t.spots, p), t.dirty), p);
            && (moved == [] || moved == [x])
            && forall o :: o in At(Below(f, t, p).spots, p).objects && o in t.dirty ==> o in moved
  {
    hide Sound, Prepared, Pruned, NoDup;
    var s := Prepared(f, t.spots, p);
    PreparedKeeps(f, t.spots, p);
    BelowKeeps(f, t, p);
    BelowStirred(f, t, p, x);
    SoundLists(f.root, s, p);
    WithinMembers(s[p].objects, t.dirty);
    var u := Below(f, t, p).spots;
    forall o | o in u[p].objects && o in t.dirty
      ensures o == x
    {
      assert o in t.dirty - f.marked;
    }
    WithinOne(s[p].objects, t.dirty, x);
  }

  lemma BelowSole(f: Facts, t: Tree, p: Path, x: GameObject)
    requires Sound(f.root, t.spots) && p in t.spots && t.spots[p].queue == [] && OnlyAt(f, t, p, x)
    ensures var u, moved := Below(f, t, p), Moved(Tree(Prepared(f, t.spots, p), t.dirty), p);
            && (moved == [] || moved == [x])
            && LeavesUpTo(u.spots, p, Kids(u.spots, p), 0, x) && AtUpTo(f, u, p, Kids(u.spots, p), 0, x)
  {
    hide Unique, Lives, Queued, Prepared, Pruned, Sole, Tiny, RegionAt, OnlyAt, Moved;
    var u := Below(f, t, p);
    BelowKeeps(f, t, p);
    BelowBuilt(f, t, p);
    BelowStirred(f, t, p, x);
    BelowMoved(f, t, p, x);
    forall q | q in u.spots && p <= q && q != p
      ensures q[|p|] in Kids(u.spots, p)
    {
      PrefixIn(f.root, u.spots, q, |p|);
      assert q[..|p|] == p;
    }
    forall q, o | q in u.spots && o in u.spots[q].objects && Stirred(f, u, o)
      ensures o == x && p <= q && q != p
    {
      assert o in t.dirty - f.marked;
    }
  }

  lemma RelocatedSole(f: Facts, t: Spots, v: Spots, p: Path, x: GameObject)
    requires Branched(f.root, v) && Unique(v) && p in v && v[p].built && x in v[p].objects && Leaves(t, v, p, x)
    ensures Leaves(t, Relocated(f, v, p, x), p, x)
  {
    hide Relocated, RegionAt, Tiny, Box.Contains, NoDup;
    var dest := Landing(f, v, p, x);
    var w := Relocated(f, v, p, x);
    forall q | q in v && !v[q].built
      ensures !(p <= q) && q in t && !t[q].built
    {
      if Sole(v, q, x) { SoleHolds(v, q, x); }
    }
    if dest.Some? && dest.value !in v {
      var q := dest.value;
      assert [] + [x] == [x];
      forall k: Corner
        ensures q + [k] !in w
      {
        assert |q + [k]| > |q| && (q + [k] in v ==> q in v);
      }
    }
  }

  /**
    If of all listed objects only `x` is stirred, at the node at `p` or below, then after the visit of that node none
    is, and unbuilt are only nodes that hold `x` alone and those outside that were.
   */
  lemma {:induction false} VisitedSole(f: Facts, t: Tree, p: Path, x: GameObject)
    requires Sound(f.root, t.spots) && p in t.spots && t.spots[p].queue == [] && OnlyAt(f, t, p, x)
    requires f.root.NonNegative()
    ensures var u := Visited(f, t, p); Leaves(t.spots, u.spots, p, x) && NoneStirred(f, u)
    decreases Level(RegionAt(f.root, p)), 10
  {
    hide Sound, Prepared, Pruned, Relocated, KidsVisited, Grows, NoDup, Leaves, NoneStirred, OnlyAt, SameOutside,
      Box.NonNegative;
    NoneLeft(f, t, p, x);
    var moved := Moved(Tree(Prepared(f, t.spots, p), t.dirty), p);
    var u := Below(f, t, p);
    BelowKeeps(f, t, p);
    BelowSole(f, t, p, x);
    var flags := Kids(u.spots, p);
    KidsSole(f, u, p, flags, 0, x);
    KidsVisitedKeeps(f, u, p, flags, 0);
    var v := KidsVisited(f, u, p, flags, 0);
    StillListed(u.spots[p].objects, v.spots[p].objects, moved);
    BelowOutside(f, t, p);
    LeavesBelow(t.spots, u.spots, v.spots, p, x);
    if moved == [x] {
      assert [x][0] in v.spots[p].objects;
      SoundBranches(f.root, v.spots);
      SoundUnique(f.root, v.spots);
      RelocatedSole(f, t.spots, v.spots, p, x);
      assert AllRelocated(f, v.spots, p, [x], 0) == AllRelocated(f, Relocated(f, v.spots, p, x), p, [x], 1);
      assert AllRelocated(f, Relocated(f, v.spots, p, x), p, [x], 1) == Relocated(f, v.spots, p, x);
    }
  }

  // ---------- one update ----------

  /** The objects in nodes that are not built. */
  ghost function Loners(t: Spots): set<GameObject> {
    set q, o | q in t && !t[q].built && o in t[q].objects :: o
  }

  /** At most one node is unbuilt, a leaf with one object. */
  ghost predicate Sparse(t: Spots) {
    |Loners(t)| <= 1 && forall q :: q in t && !t[q].built ==> Leaf(t, q) && |t[q].objects| == 1
  }

  /** What holds between the updates of such a run. */
  ghost predicate Resting(root: Box, t: Spots) {
    Sound(root, t) && t[[]].built && t[[]].queue == [] && Sparse(t)
  }

  /** The objects of the tree that have moved. */
  ghost function Movers(t: Spots, k: Tick): set<GameObject> {
    set q, o | q in t && o in t[q].objects && o in k.dirty && o !in k.facts.marked :: o
  }

  ghost function Comers(t: Spots, k: Tick): set<GameObject> {
    Elems(k.queued) + Movers(t, k)
  }

  /** At most one, and what is queued is new to the tree. */
  ghost predicate Gentle(root: Box, t: Spots, k: Tick) {
    k.facts.root == root && NoDup(k.queued) && Elems(k.queued) !! All(t) && |Comers(t, k)| <= 1
  }

  /** A single object is never handed down. */
  lemma SingleSends(f: Facts, t: Spots, q: Path)
    requires f.root.NonNegative() && |At(t, q).objects| == 1
    ensures Sends(f, t, q) == {}
  {
    hide Octant, Fit, RegionAt, Box.Contains, Box.NonNegative;
    var region, own := RegionAt(f.root, q), At(t, q).objects;
    if !region.Contains(f.BoxOf(own[0])) {
      RegionNonNegative(f.root, q);
      forall c: nat | c < 8
        ensures !Octant(region, c).Contains(f.BoxOf(own[0]))
      {
        if Octant(region, c).Contains(f.BoxOf(own[0])) { OctantInside(region, c, f.BoxOf(own[0])); }
      }
    }
  }

  lemma TwoOf(m: set<GameObject>, a: GameObject, b: GameObject)
    requires a in m && b in m && a != b
    ensures |m| >= 2
  {
    assert m == (m - {a, b}) + {a, b};
    assert |m - {a, b}| + |{a, b}| == |m|;
  }

  lemma AtMostOneQueued(t: Spots, k: Tick)
    requires NoDup(k.queued) && |Comers(t, k)| <= 1
    ensures |k.queued| <= 1
  {
    if |k.queued| > 1 { TwoOf(Comers(t, k), k.queued[0], k.queued[1]); }
  }

  /** The tree that the update begins with. */
  lemma FedEntered(root: Box, t: Spots, k: Tick)
    requires Resting(root, t) && Gentle(root, t, k)
    ensures Sound(root, Fed(t, k.queued))
    ensures if k.queued == [] then Entered(k.facts, Fed(t, k.queued)) == t
            else |k.queued| == 1 && Entered(k.facts, Fed(t, k.queued)) ==
                 Inserted(k.facts, t[[] := t[[]].(ready := false)], [], k.queued[0])
  {
    hide Sound, Sparse, Movers, NoDup;
    SoundBranches(root, t);
    AtMostOneQueued(t, k);
    var s := t[[]];
    if k.queued == [] {
      assert [] + k.queued == [];
      assert Fed(t, []) == t;
      EnteredNothing(k.facts, t);
    } else {
      var o := k.queued[0];
      assert k.queued == [o] && o in k.queued && [] + [o] == [o];
      WaitsSound(root, t, o);
      var v := t[[] := s.(ready := false)];
      assert Fed(t, [o])[[] := Fed(t, [o])[[]].(queue := [])] == v;
      assert AllInserted(k.facts, v, [], [o], 0) == AllInserted(k.facts, Inserted(k.facts, v, [], o), [], [o], 1);
    }
  }

  lemma WaitsSound(root: Box, t: Spots, o: GameObject)
    requires Resting(root, t) && o !in All(t)
    ensures Sound(root, t[[] := t[[]].(queue := t[[]].queue + [o], ready := false)])
    ensures Sound(root, t[[] := t[[]].(ready := false)])
  {
    hide Sparse;
    WaitsSteady(root, t, o);
    SoundLists(root, t, []);
    LocalKeeps(root, t, t[[] := t[[]].(ready := false)], []);
  }

  /** Where an object put in from the root ends. */
  lemma FromRoot(f: Facts, t: Spots, o: GameObject)
    requires Branched(f.root, t)
    ensures var d := Dest(f.root, t, [], f.BoxOf(o));
            d.Some? ==> Open(f.root, t, d.value) && Keeps(f, d.value, o)
    ensures Dest(f.root, t, [], f.BoxOf(o)) == None ==> !f.root.Contains(f.BoxOf(o))
  {
    hide Level, Octant, Tiny, Box.Contains;
    var d := Dest(f.root, t, [], f.BoxOf(o));
    if d.Some? {
      DestFits(f.root, t, [], f.BoxOf(o));
      DestHolds(f.root, t, [], f.BoxOf(o));
    } else {
      DestNone(f.root, t, [], f.BoxOf(o));
    }
  }

  /** What the queued object leaves unbuilt is mild, and nothing roams. */
  lemma OneEntered(f: Facts, t: Spots, o: GameObject, d: set<GameObject>)
    requires Branched(f.root, t) && f.root.NonNegative() && o !in All(t)
    requires forall q :: q in t && !t[q].built ==> Leaf(t, q) && |t[q].objects| == 1
    requires forall q, x :: q in t && x in t[q].objects && x in d ==> x in f.marked
    ensures var e := Inserted(f, t, [], o);
            (forall q :: q in e && !e[q].built ==> Mild(f, e, q)) && Roamers(f, e, d, [], 0) == {}
  {
    hide Dest, RegionAt, Box.Contains, Box.NonNegative, Sends, Open, Done;
    FromRoot(f, t, o);
    var e := Inserted(f, t, [], o);
    forall q, x | q in e && x in e[q].objects && x in d
      ensures !Stray(f, q, x)
    {
      if x == o { NotListed(t, o, q); }
    }
    forall q | q in e && !e[q].built
      ensures Mild(f, e, q)
    {
      EnteredMild(f, t, o, q);
    }
  }

  lemma NotListed(t: Spots, o: GameObject, q: Path)
    requires o !in All(t)
    ensures q in t ==> o !in t[q].objects
  {}

  lemma EnteredMild(f: Facts, t: Spots, o: GameObject, q: Path)
    requires Branched(f.root, t) && f.root.NonNegative()
    requires forall r :: r in t && !t[r].built ==> Leaf(t, r) && |t[r].objects| == 1
    requires q in Inserted(f, t, [], o) && !Inserted(f, t, [], o)[q].built
    ensures Mild(f, Inserted(f, t, [], o), q)
  {
    hide Dest, RegionAt, Tiny, Box.NonNegative, Sends;
    var dest, e := Dest(f.root, t, [], f.BoxOf(o)), Inserted(f, t, [], o);
    if dest.Some? && dest.value !in t && dest.value != [] && Up(dest.value) == q {
      SingleSends(f, e, q);
    } else {
      forall k: Corner
        ensures q + [k] !in e
      {
        assert Up(q + [k]) == q;
        assert q + [k] in t ==> q in t;
      }
    }
  }

  /** Nothing that came or moved is in the way of the others. */
  lemma GentleFew(root: Box, t: Spots, k: Tick)
    requires root.NonNegative() && Resting(root, t) && Gentle(root, t, k)
    ensures var e, m := Entered(k.facts, Fed(t, k.queued)), Comers(t, k) + Loners(t);
            |m| <= 2 && Few(k.facts, e, k.dirty, [], 0, m)
  {
    hide Branched, Unique, Lives, Queued, Entered, Fed, Sends, RegionAt, Box.Contains, Box.NonNegative, NoDup, Done;
    var f, e := k.facts, Entered(k.facts, Fed(t, k.queued));
    var m := Comers(t, k) + Loners(t);
    UnionSmall(Comers(t, k), Loners(t));
    FedEntered(root, t, k);
    SoundBranches(root, t);
    if k.queued == [] {
      StillFew(f, t, k, m);
    } else {
      QueuedFew(f, t, k, m);
    }
  }

  lemma UnionSmall(a: set<GameObject>, b: set<GameObject>)
    requires |a| <= 1 && |b| <= 1
    ensures |a + b| <= 2
  {
    assert a + b == a + (b - a) && |a + (b - a)| == |a| + |b - a|;
    assert b == (b - a) + (b * a) && |b| == |b - a| + |b * a|;
  }

  lemma SetOf(a: set<GameObject>, b: set<GameObject>, x: GameObject)
    requires a <= b && |b| <= 1 && x in a
    ensures a == {x} == b
  {
    forall y | y in b
      ensures y == x
    {
      if y != x { TwoOf(b, x, y); }
    }
  }

  lemma RoamersMove(f: Facts, t: Spots, k: Tick)
    requires f == k.facts
    ensures Roamers(f, t, k.dirty, [], 0) <= Movers(t, k)
  {
    hide Done, RegionAt, Box.Contains;
  }

  lemma StillFew(f: Facts, t: Spots, k: Tick, m: set<GameObject>)
    requires Resting(f.root, t) && f.root.NonNegative() && f == k.facts && k.queued == [] && |Comers(t, k)| <= 1
    requires m == Comers(t, k) + Loners(t)
    ensures Few(f, t, k.dirty, [], 0, m)
  {
    hide Sound, Sends, RegionAt, Box.Contains, Box.NonNegative, Done, Roamers, Movers;
    var roamers := Roamers(f, t, k.dirty, [], 0);
    RoamersMove(f, t, k);
    forall q | q in t && !t[q].built
      ensures Mild(f, t, q) && (roamers != {} ==> Lone(f, t, q, m, roamers))
    {
      SingleSends(f, t, q);
      var w := t[q].objects[0];
      assert w in t[q].objects && w in Loners(t);
      if w in roamers { SetOf(roamers, Comers(t, k), w); }
    }
  }

  /** If one is queued, none has moved. */
  lemma NoMovers(t: Spots, k: Tick)
    requires |k.queued| == 1 && |Comers(t, k)| <= 1 && Elems(k.queued) !! All(t)
    ensures Movers(t, k) == {}
    ensures forall q, x :: q in t && x in t[q].objects && x in k.dirty ==> x in k.facts.marked
  {
    assert k.queued[0] in Elems(k.queued);
    if x :| x in Movers(t, k) {
      var q :| q in t && x in t[q].objects;
      AllOf(t, q);
      TwoOf(Comers(t, k), k.queued[0], x);
    }
    forall q, x | q in t && x in t[q].objects && x in k.dirty
      ensures x in k.facts.marked
    {
      assert x !in Movers(t, k);
    }
  }

  lemma QueuedFew(f: Facts, t: Spots, k: Tick, m: set<GameObject>)
    requires Resting(f.root, t) && f.root.NonNegative() && f == k.facts && |k.queued| == 1 && |Comers(t, k)| <= 1
    requires m == Comers(t, k) + Loners(t) && Elems(k.queued) !! All(t)
    ensures Few(f, Inserted(f, t[[] := t[[]].(ready := false)], [], k.queued[0]), k.dirty, [], 0, m)
  {
    hide Sound, Sends, RegionAt, Tiny, Box.Contains, Box.NonNegative, Done, Roamers, Inserted, Mild;
    SoundBranches(f.root, t);
    var o, v := k.queued[0], t[[] := t[[]].(ready := false)];
    assert o in k.queued;
    assert v.Keys == t.Keys && forall q :: q in t ==> v[q].objects == t[q].objects && v[q].built == t[q].built;
    assert forall q :: q in t && Leaf(t, q) ==> Leaf(v, q);
    NoMovers(t, k);
    assert o !in All(v) by { assert forall q :: q in v ==> q in t && o !in t[q].objects; }
    OneEntered(f, v, o, k.dirty);
  }

  /** What has come or moved lies at most in the tree that the update begins with. */
  lemma StirredComes(root: Box, t: Spots, k: Tick)
    requires Resting(root, t) && Gentle(root, t, k)
    ensures var e := Tree(Entered(k.facts, Fed(t, k.queued)), k.dirty);
            && (forall q, o :: q in e.spots && o in e.spots[q].objects && Stirred(k.facts, e, o) ==> o in Comers(t, k))
            && All(t) + Elems(k.queued) - Outside(k.facts, Comers(t, k)) <= All(e.spots)
            && All(e.spots) * Outside(k.facts, k.dirty - k.facts.marked) <= Outside(k.facts, Comers(t, k))
  {
    hide Sound, Entered, Sparse, NoDup, Box.Contains;
    var s := Fed(t, k.queued);
    SoundBranches(root, t);
    FedEntered(root, t, k);
    EnteredKeeps(k.facts, s);
    EnteredQueue(k.facts, s);
    assert s[[]].queue == k.queued by { assert [] + k.queued == k.queued; }
    SameAll(t, s, []);
    forall q, o | q in t && o in t[q].objects
      ensures o in All(Entered(k.facts, s))
    {
      assert q in s && o in s[q].objects;
    }
    assert forall o :: o in All(Entered(k.facts, s)) * (k.dirty - k.facts.marked) ==> o in Comers(t, k);
  }

  lemma OutsideMarked(f: Facts, d: set<GameObject>)
    ensures Outside(f, d) <= Outside(f, d - f.marked) + f.marked
  {
    hide Box.Contains;
  }

  /** After an update by one object at most again only a leaf with that object is unbuilt. */
  lemma LeavesSparse(t: Spots, u: Spots, x: GameObject)
    requires Leaves(t, u, [], x)
    ensures Sparse(u)
  {
    forall q | q in u && !u[q].built
      ensures Sole(u, q, x)
    {
      assert [] <= q;
    }
    assert Loners(u) <= {x};
    Subset(Loners(u), {x});
  }

  lemma Subset(a: set<GameObject>, b: set<GameObject>)
    requires a <= b
    ensures |a| <= |b|
  {
    assert b == a + (b - a) && |a + (b - a)| == |a| + |b - a|;
  }

  lemma OnlyComer(f: Facts, e: Tree, comers: set<GameObject>, x: GameObject)
    requires |comers| <= 1 && x in comers
    requires forall q, o :: q in e.spots && o in e.spots[q].objects && Stirred(f, e, o) ==> o in comers
    ensures OnlyAt(f, e, [], x)
  {
    SetOf(comers, comers, x);
    forall q, o | q in e.spots && o in e.spots[q].objects && Stirred(f, e, o)
      ensures o == x && [] <= q
    {
      assert o in comers;
    }
  }

  lemma VisitedSparse(f: Facts, e: Tree, comers: set<GameObject>)
    requires Sound(f.root, e.spots) && [] in e.spots && e.spots[[]].queue == [] && |comers| <= 1 && f.root.NonNegative()
    requires forall q, o :: q in e.spots && o in e.spots[q].objects && Stirred(f, e, o) ==> o in comers
    ensures Sparse(Visited(f, e, []).spots)
  {
    hide Sound, Visited, Loners, NoDup, Stirred, Leaves, OnlyAt, Box.NonNegative;
    var u := Visited(f, e, []).spots;
    if x :| x in comers {
      OnlyComer(f, e, comers, x);
      VisitedSole(f, e, [], x);
      LeavesSparse(e.spots, u, x);
    } else {
      StillVisit(f, e, []);
      AllBuilt(u);
    }
  }

  lemma AllBuilt(u: Spots)
    requires forall q :: q in u && [] <= q ==> u[q].built
    ensures Sparse(u)
  {
    forall q | q in u
      ensures [] <= q && u[q].built
    {}
    assert Loners(u) == {};
  }

  /**
    An update before which at most one object came or moved, of a tree with at most one object in an unbuilt node,
    leaves such a tree and keeps every unmarked object, except that one if it is outside the root's region.
   */
  lemma GentleStep(root: Box, t: Spots, k: Tick)
    requires root.NonNegative() && Resting(root, t) && Gentle(root, t, k)
    ensures Resting(root, Next(t, k))
    ensures All(t) + Elems(k.queued) - k.facts.marked - Outside(k.facts, Comers(t, k)) <= All(Next(t, k))
  {
    hide Sound, Entered, Fed, Visited, Comers, Sparse, Few, NoDup, All, Outside, Box.NonNegative;
    var f, e := k.facts, Tree(Entered(k.facts, Fed(t, k.queued)), k.dirty);
    FedEntered(root, t, k);
    EnteredKeeps(f, Fed(t, k.queued));
    StartsEntered(f, Tree(Fed(t, k.queued), k.dirty));
    StirredComes(root, t, k);
    VisitedSparse(f, e, Comers(t, k));
    VisitedKeeps(f, e, []);
    GentleFew(root, t, k);
    assert k.dirty + {} == k.dirty;
    OutsideMarked(f, k.dirty);
    VisitedFew(f, e, [], {}, Comers(t, k) + Loners(t));
  }

  // ---------- a run ----------

  ghost predicate AllGentle(root: Box, t: Spots, ticks: seq<Tick>)
    decreases |ticks|
  {
    ticks != [] ==> Gentle(root, t, ticks[0]) && AllGentle(root, Next(t, ticks[0]), ticks[1..])
  }

  /** Of `s` and what is queued during the run, all but what was marked, or came or moved outside the root's region. */
  ghost function Owed(t: Spots, s: set<GameObject>, ticks: seq<Tick>): set<GameObject>
    decreases |ticks|
  {
    if ticks == [] then s
    else
      var k := ticks[0];
      Owed(Next(t, k), s + Elems(k.queued) - k.facts.marked - Outside(k.facts, Comers(t, k)), ticks[1..])
  }

  /** Over any run in which at most one object at a time comes or moves, no object is lost that ought to be there. */
  lemma {:induction false} RunKeepsAll(root: Box, t: Spots, ticks: seq<Tick>, s: set<GameObject>)
    requires root.NonNegative() && Resting(root, t) && AllGentle(root, t, ticks) && s <= All(t)
    ensures Resting(root, Ran(t, ticks)) && Owed(t, s, ticks) <= All(Ran(t, ticks))
    decreases |ticks|
  {
    hide Resting, Gentle, Next, Comers, Outside, All;
    if ticks != [] {
      GentleStep(root, t, ticks[0]);
      var k := ticks[0];
      RunKeepsAll(root, Next(t, k), ticks[1..], s + Elems(k.queued) - k.facts.marked - Outside(k.facts, Comers(t, k)));
    }
  }
}
