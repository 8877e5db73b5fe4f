/** Updates during which no object has left its node's region. */
module Settling {
  import opened Conservation
  import opened Division
  import opened Geometry
  import opened Layout
  import opened Objects
  import opened Outcomes
  import opened Sequences
  import opened Soundness
  import opened Visits
  import opened Wrappers

  /** In the region of the node, or not even in the root's. */
  ghost predicate Keeps(f: Facts, q: Path, o: GameObject) {
    RegionAt(f.root, q).Contains(f.BoxOf(o)) || !f.root.Contains(f.BoxOf(o))
  }

  /** None of the given objects at the node at `p` and below has left its node's region for another one in the tree. */
  ghost predicate Inside(f: Facts, t: Spots, p: Path, d: set<GameObject>) {
    forall q, o :: q in t && p <= q && o in t[q].objects && o in d ==> Keeps(f, q, o)
  }

  /** Those of the objects that are outside the root's region. */
  ghost function Outside(f: Facts, m: set<GameObject>): set<GameObject> {
    set o | o in m && !f.root.Contains(f.BoxOf(o))
  }

  /** No unmarked object there that is dirty has. */
  ghost predicate Settled(f: Facts, t: Tree, p: Path) {
    Inside(f, t.spots, p, t.dirty - f.marked)
  }

  /** The objects listed at the node at `p` and below. */
  ghost function Under(t: Spots, p: Path): set<GameObject> {
    set q, o | q in t && p <= q && o in t[q].objects :: o
  }

  lemma UnderRoot(t: Spots)
    ensures Under(t, []) == All(t)
  {
    forall q | q in t
      ensures [] <= q
    {}
  }

  // ---------- up to the loop over the children ----------

  lemma ShrunkInside(f: Facts, t: Spots, u: Spots, p: Path, d: set<GameObject>)
    requires Inside(f, t, p, d)
    requires forall q :: q in u ==> q in t && forall o :: o in u[q].objects ==> o in t[q].objects
    ensures Inside(f, u, p, d)
  {}

  lemma DividedInside(f: Facts, t: Spots, p: Path, d: set<GameObject>)
    requires p in t && Inside(f, t, p, d)
    ensures Inside(f, Divided(f, t, p), p, d)
  {
    hide Divided, Sends, Stay, Aims, RegionAt, Box.Contains;
    DividedLaw(f, t, p);
    StayMembers(f, t, p);
    var u, full := Divided(f, t, p), Sends(f, t, p);
    forall q, o | q in u && p <= q && o in u[q].objects && o in d
      ensures Keeps(f, q, o)
    {
      if Replaced(p, full, q) {
        assert Fresh(f, u, q, t[p].objects);
      } else {
        assert q in t && o in t[q].objects;
      }
    }
  }

  lemma RefreshedInside(f: Facts, t: Spots, p: Path, d: set<GameObject>)
    requires p in t && t[p].queue == [] && Inside(f, t, p, d)
    ensures Inside(f, Refreshed(f, t, p), p, d)
  {
    hide Divided, Inside;
    var s := t[p];
    assert t[p := s.(objects := s.objects + s.queue, queue := [])] == t by { assert s.objects + [] == s.objects; }
    assert t[p := s.(queue := [])] == t;
    if !s.ready {
      if !s.built {
        DividedInside(f, t, p, d);
        DividedGrows(f, t, p);
        ShrunkInside(f, Divided(f, t, p), Refreshed(f, t, p), p, d);
      } else {
        ShrunkInside(f, t, Refreshed(f, t, p), p, d);
      }
    }
  }

  lemma BelowInside(f: Facts, t: Tree, p: Path, d: set<GameObject>)
    requires Sound(f.root, t.spots) && p in t.spots && t.spots[p].queue == [] && Inside(f, t.spots, p, d)
    ensures Inside(f, Below(f, t, p).spots, p, d)
  {
    hide Refreshed, Aged, Swept, Pruned, Sound, Inside;
    var u := Refreshed(f, t.spots, p);
    RefreshedInside(f, t.spots, p, d);
    RefreshedKeeps(f, t.spots, p);
    var v := Aged(u, p);
    AgedKeeps(f.root, u, p);
    var w := Swept(f, v, p);
    SweptKeeps(f, v, p);
    PrunedShrinks(w, p, 0);
    ShrunkInside(f, u, Pruned(w, p, 0), p, d);
  }

  lemma FewerInside(f: Facts, t: Spots, p: Path, d: set<GameObject>, r: Path, less: set<GameObject>)
    requires Inside(f, t, p, d) && p <= r && less <= d
    ensures Inside(f, t, r, less)
  {
    forall q | q in t && r <= q
      ensures p <= q
    {
      assert q[..|p|] == r[..|p|] == p;
    }
  }

  lemma SiblingInside(f: Facts, t: Spots, v: Spots, p: Path, c: Corner, k: Corner, d: set<GameObject>,
                      less: set<GameObject>)
    requires SameOutside(t, v, p + [c]) && c != k && Inside(f, t, p + [k], d) && less <= d
    ensures Inside(f, v, p + [k], less)
  {
    forall q | q in v && p + [k] <= q
      ensures !(p + [c] <= q)
    {
      UnderCorner(p, c, q);
      UnderCorner(p, k, q);
    }
  }

  // ---------- relocation inside the region ----------

  /** An object still in its node's region goes back there or further down; one outside the root may be dropped. */
  lemma RelocatedInside(f: Facts, t: Spots, p: Path, o: GameObject)
    requires Sound(f.root, t) && p in t && o in t[p].objects && f.root.NonNegative() && Keeps(f, p, o)
    ensures var u := Relocated(f, t, p, o);
            SameOutside(t, u, p) && Under(u, p) <= Under(t, p) && Under(t, p) - Outside(f, {o}) <= Under(u, p)
  {
    hide RegionAt, Box.Contains, Box.NonNegative, Relocated, Branched, Lives, Queued, Tiny;
    SoundBranches(f.root, t);
    SoundLists(f.root, t, p);
    WithoutMembers(t[p].objects, o);
    var u, d := Relocated(f, t, p, o), None;
    if RegionAt(f.root, p).Contains(f.BoxOf(o)) {
      d := Landing(f, t, p, o);
    } else {
      d := LandingOutside(f, t, p, o);
      assert o in Outside(f, {o});
    }
    PutUnder(t, u, p, o, d);
  }

  lemma PutUnder(t: Spots, u: Spots, p: Path, o: GameObject, d: Option<Path>)
    requires p in t && o in t[p].objects && NoDup(t[p].objects) && (d.Some? ==> p <= d.value)
    requires var v := t[p := t[p].(objects := Without(t[p].objects, o))];
             u == (match d case None => v case Some(q) => Put(v, q, o))
    ensures SameOutside(t, u, p) && Under(u, p) <= Under(t, p) && Under(t, p) - {o} <= Under(u, p)
    ensures d.Some? ==> Under(t, p) <= Under(u, p)
  {
    WithoutMembers(t[p].objects, o);
    forall x | x in Under(t, p) && (x != o || d.Some?)
      ensures x in Under(u, p)
    {
      var r :| r in t && p <= r && x in t[r].objects;
      if x == o { assert o in u[d.value].objects; } else { assert r in u && x in u[r].objects; }
    }
    forall x | x in Under(u, p)
      ensures x in Under(t, p)
    {
      var r :| r in u && p <= r && x in u[r].objects;
      if x == o { assert o in t[p].objects; } else { assert r in t && x in t[r].objects; }
    }
  }

  lemma {:induction false} AllRelocatedInside(f: Facts, t: Spots, p: Path, moved: seq<GameObject>, i: nat,
                                              d: set<GameObject>)
    requires Sound(f.root, t) && p in t && NoDup(moved) && i <= |moved| && f.root.NonNegative()
    requires i < |moved| ==> t[p].lifespan == -1
    requires forall j :: i <= j < |moved| ==> moved[j] in t[p].objects && moved[j] in d && Keeps(f, p, moved[j])
    ensures var u := AllRelocated(f, t, p, moved, i);
            SameOutside(t, u, p) && Under(u, p) <= Under(t, p) && Under(t, p) - Outside(f, d) <= Under(u, p)
    decreases |moved| - i
  {
    hide Sound, Relocated, Keeps, Under, Box.NonNegative;
    if i < |moved| {
      var v := Relocated(f, t, p, moved[i]);
      RelocatedKeeps(f, t, p, moved[i]);
      RelocatedInside(f, t, p, moved[i]);
      AllRelocatedInside(f, v, p, moved, i + 1, d);
    }
  }

  // ---------- what such an update keeps ----------

  /** While the children from `c` on are not visited yet: at `p`, below a child that was, or spared below its child. */
  ghost predicate KeptPast(f: Facts, t: Spots, p: Path, c: nat, o: GameObject) {
    exists q :: q in t && p <= q && o in t[q].objects &&
                (q == p || q[|p|] < c || Spared(f, t, p + [q[|p|]], q, false))
  }

  lemma PastStart(f: Facts, t: Spots, p: Path, o: GameObject)
    requires p in t && t[p].built
    ensures KeptPast(f, t, p, 0, o) <==> Kept(f, t, p, o, false)
  {
    hide Sends, Aims;
    forall q | q in t && p <= q && q != p
      ensures Spared(f, t, p, q, false) <==> Spared(f, t, p + [q[|p|]], q, false)
    {
      UnderCorner(p, q[|p|], q);
      assert q[..|p|] == p;
    }
  }

  lemma PastEnd(f: Facts, t: Spots, p: Path, o: GameObject)
    ensures KeptPast(f, t, p, 8, o) <==> o in Under(t, p)
  {
    hide Spared;
    forall q | q in t && p <= q && q != p
      ensures q[|p|] < 8
    {
      var c: Corner := q[|p|];
    }
  }

  lemma PastSkip(f: Facts, t: Spots, p: Path, c: Corner, o: GameObject)
    requires Branched(f.root, t) && p + [c] !in t
    ensures KeptPast(f, t, p, c, o) <==> KeptPast(f, t, p, c + 1, o)
  {
    hide Spared;
    forall q | q in t && p <= q && q != p
      ensures q[|p|] != c
    {
      PrefixIn(f.root, t, q, |p| + 1);
      assert q[..|p| + 1] == q[..|p|] + [q[|p|]] && q[..|p|] == p;
    }
  }

  lemma PastStep(f: Facts, t: Spots, v: Spots, p: Path, c: Corner, o: GameObject)
    requires SameOutside(t, v, p + [c]) && (Kept(f, t, p + [c], o, false) <==> o in Under(v, p + [c]))
    ensures KeptPast(f, t, p, c, o) <==> KeptPast(f, v, p, c + 1, o)
  {
    hide Aims, Sends;
    forall q | p <= q && q != p && q[|p|] != c
      ensures !(p + [c] <= q)
      ensures Spared(f, t, p + [q[|p|]], q, false) <==> Spared(f, v, p + [q[|p|]], q, false)
    {
      UnderCorner(p, c, q);
      OutsideSpared(f, t, v, p, c, q);
    }
    forall q | p <= q && q != p && q[|p|] == c
      ensures p + [c] <= q
    {
      UnderCorner(p, c, q);
    }
    assert !(p + [c] <= p);
    if KeptPast(f, t, p, c, o) {
      var q :| q in t && p <= q && o in t[q].objects &&
               (q == p || q[|p|] < c || Spared(f, t, p + [q[|p|]], q, false));
      if q != p && q[|p|] == c {
        assert Kept(f, t, p + [c], o, false);
        var r :| r in v && p + [c] <= r && o in v[r].objects;
        UnderCorner(p, c, r);
      } else {
        assert q in v && o in v[q].objects;
      }
    }
    if KeptPast(f, v, p, c + 1, o) {
      var q :| q in v && p <= q && o in v[q].objects &&
               (q == p || q[|p|] < c + 1 || Spared(f, v, p + [q[|p|]], q, false));
      if q != p && q[|p|] == c {
        assert o in Under(v, p + [c]);
        var r :| r in t && o in t[r].objects && Spared(f, t, p + [c], r, false);
        UnderCorner(p, c, r);
      } else {
        assert q in t && o in t[q].objects;
      }
    }
  }

  lemma OutsideSpared(f: Facts, t: Spots, v: Spots, p: Path, c: Corner, q: Path)
    requires SameOutside(t, v, p + [c]) && p <= q && q != p && q[|p|] != c
    ensures Spared(f, t, p + [q[|p|]], q, false) <==> Spared(f, v, p + [q[|p|]], q, false)
  {
    hide Aims;
    forall i | |p| < i < |q|
      ensures !(p + [c] <= q[..i])
    {
      UnderCorner(p, c, q[..i]);
    }
  }

  lemma OutsideJoins(t: Spots, v: Spots, u: Spots, p: Path, c: Corner)
    requires SameOutside(t, v, p + [c]) && SameOutside(v, u, p)
    ensures SameOutside(t, u, p)
  {
    forall q | !(p <= q)
      ensures (q in t <==> q in u) && (q in t ==> u[q] == t[q])
    {
      UnderCorner(p, c, q);
    }
  }

  /**
    An update of the node at `p` when no dirty object there or below has left its node's region for another one in the
    tree: of the unmarked objects, except those that have left the root's region, exactly those that are spared below
    `p` are listed there afterwards, and elsewhere nothing changes.
   */
  lemma {:induction false} VisitedSettled(f: Facts, t: Tree, p: Path, watch: set<GameObject>)
    requires Sound(f.root, t.spots) && p in t.spots && t.spots[p].queue == [] && Settled(f, t, p)
    requires f.root.NonNegative()
    ensures var u := Visited(f, t, p);
            && SameOutside(t.spots, u.spots, p)
            && forall o :: o in watch - f.marked - Outside(f, t.dirty) ==>
                 (Kept(f, t.spots, p, o, false) <==> o in Under(u.spots, p))
    decreases Level(RegionAt(f.root, p)), 10
  {
    hide Unique, Lives, Queued, Prepared, Pruned, AllRelocated, KidsVisited, Kept, KeptPast, Under, Inside, Grows,
      NoDup, Box.Contains, Box.NonNegative, Keeps;
    var moved := Moved(Tree(Prepared(f, t.spots, p), t.dirty), p);
    var u := Below(f, t, p);
    BelowKeeps(f, t, p);
    BelowOutside(f, t, p);
    BelowInside(f, t, p, t.dirty - f.marked);
    forall o | o in watch - f.marked
      ensures Kept(f, t.spots, p, o, false) <==> KeptPast(f, u.spots, p, 0, o)
    {
      BelowKept(f, t, p, p, o, false);
      PastStart(f, u.spots, p, o);
    }
    var flags := Kids(u.spots, p);
    forall k | k in flags
      ensures Settled(f, u, p + [k])
    {
      FewerInside(f, u.spots, p, t.dirty - f.marked, p + [k], u.dirty - f.marked);
    }
    KidsSettled(f, u, p, flags, 0, watch);
    KidsVisitedKeeps(f, u, p, flags, 0);
    var v := KidsVisited(f, u, p, flags, 0);
    StillListed(u.spots[p].objects, v.spots[p].objects, moved);
    MovedInside(f, t, p);
    WithinMembers(At(Prepared(f, t.spots, p), p).objects, t.dirty);
    AllRelocatedInside(f, v.spots, p, moved, 0, t.dirty);
  }

  lemma MovedInside(f: Facts, t: Tree, p: Path)
    requires Sound(f.root, t.spots) && p in t.spots && t.spots[p].queue == [] && Settled(f, t, p)
    ensures forall o :: o in Moved(Tree(Prepared(f, t.spots, p), t.dirty), p) ==> Keeps(f, p, o)
  {
    hide Sound, Prepared, Pruned, Keeps;
    var s := Prepared(f, t.spots, p);
    BelowKeeps(f, t, p);
    PreparedKeeps(f, t.spots, p);
    BelowInside(f, t, p, t.dirty - f.marked);
    WithinMembers(s[p].objects, t.dirty);
  }

  lemma {:induction false} KidsSettled(f: Facts, t: Tree, p: Path, flags: set<Corner>, c: nat, watch: set<GameObject>)
    requires Sound(f.root, t.spots) && p in t.spots && c <= 8
    requires forall k :: k in flags && c <= k ==> p + [k] in t.spots && Settled(f, t, p + [k])
    requires forall k: Corner :: c <= k && p + [k] in t.spots ==> k in flags
    requires f.root.NonNegative()
    ensures var u := KidsVisited(f, t, p, flags, c);
            && SameOutside(t.spots, u.spots, p)
            && forall o :: o in watch - f.marked - Outside(f, t.dirty) ==>
                 (KeptPast(f, t.spots, p, c, o) <==> o in Under(u.spots, p))
    decreases Level(RegionAt(f.root, p)), 8 - c
  {
    hide Unique, Lives, Queued, Visited, Kept, KeptPast, Under, Inside, Grows, RegionAt, Tiny, Box.NonNegative;
    if c == 8 {
      forall o | o in watch - f.marked {
        PastEnd(f, t.spots, p, o);
      }
    } else if c !in flags || Tiny(RegionAt(f.root, p)) {
      forall o | o in watch - f.marked {
        PastSkip(f, t.spots, p, c, o);
      }
      KidsSettled(f, t, p, flags, c + 1, watch);
    } else {
      RegionBelow(f.root, p, c);
      var v := Visited(f, t, p + [c]);
      VisitedKeeps(f, t, p + [c]);
      VisitedOnly(f, t, p + [c]);
      ReadyMeans(f.root, t.spots, p + [c]);
      VisitedSettled(f, t, p + [c], watch);
      KidGrows(t.spots, v.spots, p, flags, c);
      KidsStay(t.spots, v.spots, p, flags, c);
      forall k | k in flags && c + 1 <= k
        ensures Settled(f, v, p + [k])
      {
        SiblingInside(f, t.spots, v.spots, p, c, k, t.dirty - f.marked, v.dirty - f.marked);
      }
      forall o | o in watch - f.marked - Outside(f, t.dirty) {
        PastStep(f, t.spots, v.spots, p, c, o);
      }
      KidsSettled(f, v, p, flags, c + 1, watch);
      OutsideJoins(t.spots, v.spots, KidsVisited(f, v, p, flags, c + 1).spots, p, c);
    }
  }

  lemma KidsStay(t: Spots, v: Spots, p: Path, flags: set<Corner>, c: Corner)
    requires SameOutside(t, v, p + [c]) && forall k: Corner :: c <= k && p + [k] in t ==> k in flags
    ensures forall k: Corner :: c + 1 <= k && p + [k] in v ==> k in flags
  {
    forall k: Corner | c + 1 <= k && p + [k] in v
      ensures k in flags
    {
      UnderCorner(p, c, p + [k]);
    }
  }

  // ---------- which such updates build every node ----------

  /**
    A visit puts the object back, if not out of the tree: it is in its region and fits no octant, or is in a leaf that
    stays undivided, or outside the root's region.
   */
  ghost predicate Returns(f: Facts, t: Spots, q: Path, o: GameObject) {
    var region := RegionAt(f.root, q);
    || !f.root.Contains(f.BoxOf(o))
    || (&& region.Contains(f.BoxOf(o)) && !f.BoxOf(o).IsPoint()
        && (Fit(region, f.BoxOf(o), 0) == 8
            || (Leaf(t, q) && (At(t, q).built ==> Tiny(region) || At(t, q).objects == [o]))))
  }

  /** Dirty and not marked. */
  ghost predicate Stirred(f: Facts, t: Tree, o: GameObject) {
    o in t.dirty - f.marked
  }

  /** Every stirred object at the node at `p` and below returns; in an unbuilt leaf all with volume do. */
  ghost predicate Rests(f: Facts, t: Tree, p: Path) {
    forall q, o :: q in t.spots && p <= q && o in t.spots[q].objects && Stirred(f, t, o) ==> Returns(f, t.spots, q, o)
  }

  lemma RestsSettled(f: Facts, t: Tree, p: Path)
    requires Rests(f, t, p)
    ensures Settled(f, t, p)
  {
    hide Box.Contains, Box.IsPoint, Fit, RegionAt;
    forall q, o | q in t.spots && p <= q && o in t.spots[q].objects && o in t.dirty - f.marked
      ensures Keeps(f, q, o)
    {
      assert Stirred(f, t, o);
    }
  }

  lemma ShrunkReturns(f: Facts, t: Spots, u: Spots, q: Path, o: GameObject)
    requires q in t && q in u && u[q].built == t[q].built && (Leaf(t, q) ==> Leaf(u, q))
    requires NoDup(u[q].objects) && o in u[q].objects && forall x :: x in u[q].objects ==> x in t[q].objects
    requires Returns(f, t, q, o)
    ensures Returns(f, u, q, o)
  {
    hide Box.Contains, Box.IsPoint, Fit, RegionAt, Tiny;
    var own := u[q].objects;
    if t[q].objects == [o] {
      assert forall i :: 0 <= i < |own| ==> own[i] in own && own[i] == o;
      assert |own| > 1 ==> own[0] == own[1];
    }
  }

  lemma SameReturns(f: Facts, t: Spots, v: Spots, q: Path, o: GameObject)
    requires q in t && q in v && v[q] == t[q] && (Leaf(t, q) ==> Leaf(v, q)) && Returns(f, t, q, o)
    ensures Returns(f, v, q, o)
  {}

  /** An object handed down on a first visit returns where it has come to. */
  lemma FreshReturns(f: Facts, u: Spots, q: Path, from: seq<GameObject>, o: GameObject)
    requires Fresh(f, u, q, from) && o in u[q].objects && (f.root.Contains(f.BoxOf(o)) ==> !f.BoxOf(o).IsPoint())
    ensures Returns(f, u, q, o)
  {
    hide Fit, Tiny, RegionAt, Box.Contains, Box.IsPoint;
    var region := RegionAt(f.root, q);
    if Aims(f, region, u[q].objects) == {} {
      assert Target(f, region, o) !in Aims(f, region, u[q].objects);
    }
  }

  /** ... and so does one that stays. */
  lemma StayReturns(f: Facts, t: Spots, p: Path, o: GameObject)
    requires p in t && !t[p].built && Returns(f, t, p, o) && o in FirstBuilt(f, t, p)[p].objects
    ensures Returns(f, FirstBuilt(f, t, p), p, o)
  {
    hide Fit, Octant, Level, Tiny, RegionAt, CornersDone, Box.Contains, Box.IsPoint, Handed, Aims, AllFresh;
    var region, own := RegionAt(f.root, p), t[p].objects;
    if Divides(f, region, own) {
      DividedLaw(f, t, p);
      HandedMembers(f, region, own, 8);
    } else if |own| == 1 {
      assert own == [o];
    }
  }

  lemma FirstLeaf(f: Facts, t: Spots, p: Path, q: Path)
    requires p in t && q != p && !Replaced(p, Sends(f, t, p), q) && Leaf(t, q)
    ensures Leaf(FirstBuilt(f, t, p), q)
  {
    hide Divided, Sends, Stay, AllFresh;
    DividedLaw(f, t, p);
    forall k: Corner
      ensures q + [k] !in FirstBuilt(f, t, p)
    {
      ReplacedUp(p, Sends(f, t, p), q, k);
    }
  }

  lemma FirstReturns(f: Facts, t: Spots, p: Path, q: Path, o: GameObject)
    requires p in t && !t[p].built
    requires forall r :: r in t && p <= r && o in t[r].objects ==> Returns(f, t, r, o)
    requires var u := FirstBuilt(f, t, p); q in u && p <= q && o in u[q].objects
    ensures Returns(f, FirstBuilt(f, t, p), q, o)
  {
    hide Divided, Sends, Fit, Tiny, RegionAt, Box.Contains, Box.IsPoint, Aims;
    DividedLaw(f, t, p);
    StayMembers(f, t, p);
    var u, full := FirstBuilt(f, t, p), Sends(f, t, p);
    if Replaced(p, full, q) {
      FreshReturns(f, Divided(f, t, p), q, t[p].objects, o);
    } else if q == p {
      StayReturns(f, t, p, o);
    } else {
      assert q in t && t[q] == u[q];
      if Leaf(t, q) { FirstLeaf(f, t, p, q); }
    }
  }

  lemma RefreshedReturns(f: Facts, t: Spots, p: Path, q: Path, o: GameObject)
    requires Sound(f.root, t) && p in t && t[p].queue == []
    requires forall r :: r in t && p <= r && o in t[r].objects ==> Returns(f, t, r, o)
    requires var u := Refreshed(f, t, p); q in u && p <= q && o in u[q].objects
    ensures Returns(f, Refreshed(f, t, p), q, o)
  {
    hide Sound, Divided, Fit, Tiny, RegionAt, Box.Contains, Box.IsPoint;
    ReadyMeans(f.root, t, p);
    var s := t[p];
    assert t[p := s.(objects := s.objects + s.queue, queue := [])] == t by { assert s.objects + [] == s.objects; }
    assert t[p := s.(queue := [])] == t;
    if !s.ready && !s.built {
      FirstReturns(f, t, p, q, o);
    } else {
      assert Leaf(t, q) ==> Leaf(Refreshed(f, t, p), q);
    }
  }

  lemma BelowReturns(f: Facts, t: Tree, p: Path, q: Path, o: GameObject)
    requires Sound(f.root, t.spots) && p in t.spots && t.spots[p].queue == []
    requires forall r :: r in t.spots && p <= r && o in t.spots[r].objects ==> Returns(f, t.spots, r, o)
    requires var u := Below(f, t, p).spots; q in u && p <= q && o in u[q].objects
    ensures Returns(f, Below(f, t, p).spots, q, o)
  {
    hide Refreshed, Aged, Swept, Pruned, Sound, Returns, NoDup;
    var u := Refreshed(f, t.spots, p);
    RefreshedKeeps(f, t.spots, p);
    var v := Aged(u, p);
    AgedKeeps(f.root, u, p);
    var w := Swept(f, v, p);
    SweptKeeps(f, v, p);
    PrunedShrinks(w, p, 0);
    PrunedBuilt(w, p, 0);
    BelowKeeps(f, t, p);
    SoundLists(f.root, Pruned(w, p, 0), q);
    RefreshedReturns(f, t.spots, p, q, o);
    assert Leaf(u, q) ==> Leaf(Pruned(w, p, 0), q);
    ShrunkReturns(f, u, Pruned(w, p, 0), q, o);
  }

  lemma {:induction false} PrunedBuilt(t: Spots, p: Path, c: nat)
    requires c <= 8
    ensures forall q :: q in Pruned(t, p, c) ==> q in t && Pruned(t, p, c)[q].built == t[q].built
    decreases 8 - c
  {
    if c < 8 { PrunedBuilt(Judged(t, p + [c]), p, c + 1); }
  }

  /** Such an object is taken out and put back at the end of the list, or not at all. */
  lemma RelocatedBack(f: Facts, t: Spots, p: Path, o: GameObject)
    requires Branched(f.root, t) && f.root.NonNegative()
    requires p in t && t[p].built && o in t[p].objects && NoDup(t[p].objects) && Returns(f, t, p, o)
    ensures var u := Relocated(f, t, p, o);
            p in u && u == t[p := t[p].(objects := u[p].objects)] && forall x :: x in u[p].objects ==> x in t[p].objects
  {
    hide Fit, Octant, Level, Tiny, RegionAt, Box.Contains, Box.IsPoint, Box.NonNegative, NoDup, Branched;
    var v := t[p := t[p].(objects := Without(t[p].objects, o))];
    WithoutMembers(t[p].objects, o);
    if !f.root.Contains(f.BoxOf(o)) {
      var d := LandingOutside(f, t, p, o);
    } else {
      if Leaf(t, p) { assert Leaf(v, p); }
      if t[p].objects == [o] { assert v[p].objects == []; }
      assert Dest(f.root, v, p, f.BoxOf(o)) == Some(p);
    }
  }

  lemma {:induction false} AllRelocatedBack(f: Facts, t: Spots, p: Path, moved: seq<GameObject>, i: nat)
    requires Sound(f.root, t) && p in t && t[p].built && NoDup(moved) && i <= |moved| && f.root.NonNegative()
    requires i < |moved| ==> t[p].lifespan == -1
    requires forall j :: i <= j < |moved| ==> moved[j] in t[p].objects && Returns(f, t, p, moved[j])
    ensures AllRelocated(f, t, p, moved, i).Keys == t.Keys
    ensures forall q :: q in t ==> AllRelocated(f, t, p, moved, i)[q].built == t[q].built
    decreases |moved| - i
  {
    hide Sound, Relocated, Returns, Box.NonNegative;
    if i < |moved| {
      var v := Relocated(f, t, p, moved[i]);
      RelocatedKeeps(f, t, p, moved[i]);
      SoundBranches(f.root, t);
      SoundLists(f.root, t, p);
      SoundLists(f.root, v, p);
      RelocatedBack(f, t, p, moved[i]);
      assert Leaf(t, p) ==> Leaf(v, p);
      forall j | i + 1 <= j < |moved|
        ensures Returns(f, v, p, moved[j])
      {
        ShrunkReturns(f, t, v, p, moved[j]);
      }
      AllRelocatedBack(f, v, p, moved, i + 1);
    }
  }

  /** While the children from `c` on, among `flags`, are not visited yet, only nodes below them are unbuilt. */
  ghost predicate BuiltUpTo(t: Spots, p: Path, flags: set<Corner>, c: nat) {
    forall q :: q in t && p <= q && !t[q].built ==> q != p && c <= q[|p|] && q[|p|] in flags
  }

  lemma BelowBuilt(f: Facts, t: Tree, p: Path)
    requires Sound(f.root, t.spots) && p in t.spots
    ensures var u := Below(f, t, p).spots; BuiltUpTo(u, p, Kids(u, p), 0)
  {
    hide Unique, Lives, Queued, Prepared, Pruned;
    BelowKeeps(f, t, p);
    var u := Below(f, t, p).spots;
    forall q | q in u && p <= q && q != p
      ensures q[|p|] in Kids(u, p)
    {
      PrefixIn(f.root, u, q, |p|);
      assert q[..|p|] == p;
    }
  }

  lemma BuiltSkip(root: Box, t: Spots, p: Path, flags: set<Corner>, c: Corner)
    requires Sound(root, t) && BuiltUpTo(t, p, flags, c) && (c !in flags || Tiny(RegionAt(root, p)))
    ensures BuiltUpTo(t, p, flags, c + 1)
  {
    forall q | q in t && p <= q && q != p
      ensures !Tiny(RegionAt(root, p))
    {
      PrefixIn(root, t, q, |p|);
      assert q[..|p|] == p;
    }
  }

  lemma BuiltStep(t: Spots, v: Spots, p: Path, flags: set<Corner>, c: Corner)
    requires BuiltUpTo(t, p, flags, c) && SameOutside(t, v, p + [c])
    requires forall q :: q in v && p + [c] <= q ==> v[q].built
    ensures BuiltUpTo(v, p, flags, c + 1)
  {
    forall q | q in v && p <= q && !v[q].built
      ensures q != p && c + 1 <= q[|p|] && q[|p|] in flags
    {
      UnderCorner(p, c, q);
    }
  }

  /** An update in which every object that moved returns builds every node at `p` and below. */
  lemma {:induction false} VisitedBuilds(f: Facts, t: Tree, p: Path)
    requires Sound(f.root, t.spots) && p in t.spots && t.spots[p].queue == [] && Rests(f, t, p)
    requires f.root.NonNegative()
    ensures var u := Visited(f, t, p).spots; forall q :: q in u && p <= q ==> u[q].built
    decreases Level(RegionAt(f.root, p)), 10
  {
    hide Unique, Lives, Queued, Prepared, Pruned, AllRelocated, KidsVisited, Returns, BuiltUpTo, Grows, NoDup;
    var moved := Moved(Tree(Prepared(f, t.spots, p), t.dirty), p);
    var u := Below(f, t, p);
    BelowKeeps(f, t, p);
    BelowBuilt(f, t, p);
    forall q, o | q in u.spots && p <= q && o in u.spots[q].objects && o in t.dirty - f.marked
      ensures Returns(f, u.spots, q, o)
    {
      BelowReturns(f, t, p, q, o);
    }
    var flags := Kids(u.spots, p);
    forall k | k in flags
      ensures Rests(f, u, p + [k])
    {
      RestsBelow(f, u, p, p + [k]);
    }
    KidsBuild(f, u, p, flags, 0);
    KidsVisitedKeeps(f, u, p, flags, 0);
    var v := KidsVisited(f, u, p, flags, 0);
    StillListed(u.spots[p].objects, v.spots[p].objects, moved);
    SoundLists(f.root, v.spots, p);
    forall o | o in moved
      ensures Returns(f, v.spots, p, o)
    {
      MovedClean(f, t, p, o);
      WithinMembers(Prepared(f, t.spots, p)[p].objects, t.dirty);
      assert Leaf(u.spots, p) ==> Leaf(v.spots, p);
      ShrunkReturns(f, u.spots, v.spots, p, o);
    }
    AllRelocatedBack(f, v.spots, p, moved, 0);
  }

  lemma RestsBelow(f: Facts, t: Tree, p: Path, r: Path)
    requires Rests(f, t, p) && p <= r
    ensures Rests(f, t, r)
  {
    hide Returns;
    forall q | q in t.spots && r <= q
      ensures p <= q
    {
      assert q[..|p|] == r[..|p|] == p;
    }
  }

  lemma RestsBeside(f: Facts, t: Tree, v: Tree, p: Path, c: Corner, k: Corner)
    requires SameOutside(t.spots, v.spots, p + [c]) && c != k && Rests(f, t, p + [k]) && v.dirty <= t.dirty
    ensures Rests(f, v, p + [k])
  {
    hide Returns;
    forall q, o | q in v.spots && p + [k] <= q && o in v.spots[q].objects && o in v.dirty - f.marked
      ensures Returns(f, v.spots, q, o)
    {
      UnderCorner(p, c, q);
      UnderCorner(p, k, q);
      forall j: Corner
        ensures !(p + [c] <= q + [j])
      {
        UnderCorner(p, c, q + [j]);
        assert (q + [j])[|p|] == q[|p|];
      }
      SameReturns(f, t.spots, v.spots, q, o);
    }
  }

  lemma {:induction false} KidsBuild(f: Facts, t: Tree, p: Path, flags: set<Corner>, c: nat)
    requires Sound(f.root, t.spots) && p in t.spots && c <= 8 && BuiltUpTo(t.spots, p, flags, c) && f.root.NonNegative()
    requires forall k :: k in flags && c <= k ==> p + [k] in t.spots && Rests(f, t, p + [k])
    ensures var u := KidsVisited(f, t, p, flags, c).spots;
            && (forall q :: q in u && p <= q ==> u[q].built)
            && p in u && u[p] == t.spots[p] && forall k: Corner :: p + [k] in u ==> p + [k] in t.spots
    decreases Level(RegionAt(f.root, p)), 8 - c
  {
    hide Sound, Visited, Rests, Grows, RegionAt, Tiny;
    if c < 8 {
      if c !in flags || Tiny(RegionAt(f.root, p)) {
        BuiltSkip(f.root, t.spots, p, flags, c);
        KidsBuild(f, t, p, flags, c + 1);
      } else {
        RegionBelow(f.root, p, c);
        var v := Visited(f, t, p + [c]);
        VisitedKeeps(f, t, p + [c]);
        VisitedOnly(f, t, p + [c]);
        ReadyMeans(f.root, t.spots, p + [c]);
        RestsSettled(f, t, p + [c]);
        VisitedSettled(f, t, p + [c], {});
        VisitedBuilds(f, t, p + [c]);
        KidGrows(t.spots, v.spots, p, flags, c);
        assert !(p + [c] <= p);
        forall k: Corner | p + [k] in v.spots
          ensures p + [k] in t.spots
        {
          UnderCorner(p, c, p + [k]);
        }
        forall k | k in flags && c + 1 <= k
          ensures Rests(f, v, p + [k])
        {
          RestsBeside(f, t, v, p, c, k);
        }
        BuiltStep(t.spots, v.spots, p, flags, c);
        KidsBuild(f, v, p, flags, c + 1);
      }
    }
  }
}
