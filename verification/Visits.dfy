/** What one `Update` keeps: the invariants, the rest of the tree, and order among the objects it visits. */
module Visits {
  import opened Division
  import opened Geometry
  import opened Layout
  import opened Objects
  import opened Sequences
  import opened Soundness

  // ---------- a change of one node ----------

  /** What the node at `p` may lose or become on its own. */
  ghost predicate LocalChange(t: Spots, u: Spots, p: Path) {
    && p in t && p in u && u == t[p := u[p]]
    && NoDup(u[p].objects) && (forall o :: o in u[p].objects ==> o in t[p].objects)
    && (u[p].queue == t[p].queue || u[p].queue == [])
    && (u[p].queue != [] ==> !u[p].ready) && (u[p].ready ==> u[p].built) && (p != [] ==> u[p].ready == u[p].built)
    && (u[p].lifespan != -1 && u[p].objects == [] ==> Leaf(t, p)) && (!u[p].built ==> u[p].lifespan == -1)
  }

  lemma LocalKeeps(root: Box, t: Spots, u: Spots, p: Path)
    requires Sound(root, t) && LocalChange(t, u, p)
    ensures Sound(root, u)
  {
    hide Branched, Unique, Lives, Queued;
    LocalBranched(root, t, u, p);
    LocalUnique(t, u, p);
    LocalLives(t, u, p);
    LocalQueued(t, u, p);
  }

  lemma LocalBranched(root: Box, t: Spots, u: Spots, p: Path)
    requires Branched(root, t) && LocalChange(t, u, p)
    ensures Branched(root, u)
  {
    assert t.Keys == u.Keys;
  }

  lemma LocalUnique(t: Spots, u: Spots, p: Path)
    requires Unique(t) && LocalChange(t, u, p)
    ensures Unique(u)
  {
    hide NoDup;
    forall q, o | q in u && o in u[q].objects
      ensures q in t && o in t[q].objects
    {}
  }

  lemma LocalLives(t: Spots, u: Spots, p: Path)
    requires Lives(t) && LocalChange(t, u, p)
    ensures Lives(u)
  {
    hide NoDup;
    forall q | q in t && Leaf(t, q)
      ensures Leaf(u, q)
    {}
  }

  lemma LocalQueued(t: Spots, u: Spots, p: Path)
    requires Queued(t) && LocalChange(t, u, p)
    ensures Queued(u)
  {
    hide Leaf;
    forall q, r, o | q in u && r in u && o in u[q].queue
      ensures o !in u[r].objects
    {
      assert o in t[q].queue;
    }
  }

  // ---------- the queue ----------

  lemma {:induction false} AllInsertedKeeps(f: Facts, t: Spots, p: Path, list: seq<GameObject>, i: nat)
    requires Sound(f.root, t) && p in t && NoDup(list)
    requires forall j :: i <= j < |list| ==> Nowhere(t, list[j])
    ensures var u := AllInserted(f, t, p, list, i);
            Sound(f.root, u) && Grows(t, u, p) && (forall q :: q in t ==> q in u) && SameVisits(t, u)
    decreases |list| - i
  {
    hide Sound, Nowhere, Inserted, Grows, SameVisits;
    GrowsSelf(t, p);
    if i < |list| {
      var v := Inserted(f, t, p, list[i]);
      InsertedKeeps(f, t, p, list[i]);
      InsertedGrows(f, t, p, list[i], p);
      InsertedVisits(f, t, p, list[i]);
      forall j | i + 1 <= j < |list|
        ensures Nowhere(v, list[j])
      {
        StillNowhere(f, t, p, list[i], list[j]);
      }
      AllInsertedKeeps(f, v, p, list, i + 1);
      GrowsJoins(t, v, AllInserted(f, t, p, list, i), p, p);
      VisitsJoin(t, v, AllInserted(f, t, p, list, i));
    }
  }

  lemma GrowsSelf(t: Spots, p: Path)
    ensures Grows(t, t, p) && SameVisits(t, t)
  {}

  /** Nodes stay and differ at most in their object lists. */
  ghost predicate SameVisits(t: Spots, u: Spots) {
    forall q :: q in t ==> q in u && u[q] == t[q].(objects := u[q].objects)
  }

  lemma VisitsJoin(t: Spots, u: Spots, v: Spots)
    requires SameVisits(t, u) && SameVisits(u, v)
    ensures SameVisits(t, v)
  {}

  lemma InsertedVisits(f: Facts, t: Spots, p: Path, o: GameObject)
    ensures SameVisits(t, Inserted(f, t, p, o))
  {
    hide Dest;
  }

  lemma StillNowhere(f: Facts, t: Spots, p: Path, o: GameObject, x: GameObject)
    requires Nowhere(t, x) && x != o
    ensures Nowhere(Inserted(f, t, p, o), x)
  {
    hide Dest;
  }

  /** The tree with the queue of a node cleared. */
  ghost function Cleared(t: Spots, p: Path): Spots {
    t[p := At(t, p).(queue := [])]
  }

  /** Insertion looks at paths and object lists only. */
  lemma {:induction false} DestSame(root: Box, t: Spots, u: Spots, p: Path, box: Box)
    requires t.Keys == u.Keys && forall q :: q in t ==> u[q].objects == t[q].objects
    ensures Dest(root, t, p, box) == Dest(root, u, p, box)
    decreases if RegionAt(root, p).Contains(box) then 0 else 1,
              if RegionAt(root, p).Contains(box) then Level(RegionAt(root, p)) else |p|
  {
    hide Octant, Tiny, Level;
    assert Leaf(t, p) <==> Leaf(u, p);
    var region := RegionAt(root, p);
    if p in t && !(t[p].objects == [] && Leaf(t, p)) && !Tiny(region) {
      if region.Contains(box) {
        var c := Fit(region, box, 0);
        if c < 8 {
          RegionBelow(root, p, c);
          DestSame(root, t, u, p + [c], box);
        }
      } else if p != [] {
        DestSame(root, t, u, Up(p), box);
      }
    }
  }

  /** So it does not matter whether the queue is cleared before its objects are inserted or after. */
  lemma {:induction false} AllInsertedCleared(f: Facts, t: Spots, p: Path, list: seq<GameObject>, i: nat)
    requires p in t
    ensures AllInserted(f, Cleared(t, p), p, list, i) == Cleared(AllInserted(f, t, p, list, i), p)
    decreases |list| - i
  {
    hide Dest;
    if i < |list| {
      DestSame(f.root, t, Cleared(t, p), p, f.BoxOf(list[i]));
      assert Inserted(f, Cleared(t, p), p, list[i]) == Cleared(Inserted(f, t, p, list[i]), p);
      AllInsertedCleared(f, Inserted(f, t, p, list[i]), p, list, i + 1);
    }
  }

  lemma QueueTaken(root: Box, t: Spots, p: Path)
    requires Sound(root, t) && p in t && !t[p].ready && t[p].built
    ensures var u := t[p := t[p].(queue := [])];
            && Sound(root, u) && NoDup(t[p].queue)
            && forall j :: 0 <= j < |t[p].queue| ==> Nowhere(u, t[p].queue[j])
  {
    var u := t[p := t[p].(queue := [])];
    assert p == [];
    LocalKeeps(root, t, u, p);
    forall j, q | 0 <= j < |t[p].queue| && q in u
      ensures t[p].queue[j] !in u[q].objects && t[p].queue[j] !in u[q].queue
    {
      assert t[p].queue[j] in t[p].queue;
    }
  }

  lemma QueueJoined(root: Box, t: Spots, p: Path)
    requires Sound(root, t) && p in t && !t[p].ready && !t[p].built
    ensures Sound(root, t[p := t[p].(objects := t[p].objects + t[p].queue, queue := [])])
  {
    var u := t[p := t[p].(objects := t[p].objects + t[p].queue, queue := [])];
    JoinedUnique(t, p);
    forall q | q in t && Leaf(t, q)
      ensures Leaf(u, q)
    {}
    forall q, r, o | q in u && r in u && o in u[q].queue
      ensures o !in u[r].objects
    {
      assert q != p;
    }
  }

  lemma JoinedUnique(t: Spots, p: Path)
    requires Unique(t) && Queued(t) && p in t
    ensures Unique(t[p := t[p].(objects := t[p].objects + t[p].queue, queue := [])])
  {
    hide NoDup;
    NoDupJoin(t[p].objects, t[p].queue);
  }

  lemma RefreshedKeeps(f: Facts, t: Spots, p: Path)
    requires Sound(f.root, t) && p in t
    ensures var u := Refreshed(f, t, p);
            Sound(f.root, u) && p in u && u[p].built && u[p].ready && u[p].queue == [] && Grows(t, u, p)
  {
    hide Sound, Divided, Grows, AllInserted;
    ReadyMeans(f.root, t, p);
    var s := t[p];
    if s.ready {
      GrowsSelf(t, p);
    } else if !s.built {
      var v := t[p := s.(objects := s.objects + s.queue, queue := [])];
      QueueJoined(f.root, t, p);
      DividedKeeps(f, v, p);
      DividedGrows(f, v, p);
      var w := Divided(f, v, p);
      FlagsKeep(f.root, w, p);
      LocalGrows(t, v, p);
      GrowsJoins(t, v, w, p, p);
      LocalGrows(w, Refreshed(f, t, p), p);
      GrowsJoins(t, w, Refreshed(f, t, p), p, p);
    } else {
      var v := t[p := s.(queue := [])];
      QueueTaken(f.root, t, p);
      AllInsertedKeeps(f, v, p, s.queue, 0);
      var w := AllInserted(f, v, p, s.queue, 0);
      FlagsKeep(f.root, w, p);
      LocalGrows(t, v, p);
      GrowsJoins(t, v, w, p, p);
      LocalGrows(w, Refreshed(f, t, p), p);
      GrowsJoins(t, w, Refreshed(f, t, p), p, p);
    }
  }

  lemma ReadyMeans(root: Box, t: Spots, p: Path)
    requires Sound(root, t) && p in t
    ensures t[p].ready ==> t[p].built && t[p].queue == []
    ensures p != [] ==> t[p].queue == []
  {}

  lemma DividedGrows(f: Facts, t: Spots, p: Path)
    requires p in t
    ensures var u := Divided(f, t, p); p in u && u[p].queue == t[p].queue && Grows(t, u, p)
    ensures Divided(f, t, p)[p].lifespan == t[p].lifespan
  {
    hide Sends, Stay, Fresh, Divided;
    DividedLaw(f, t, p);
  }

  /** A change of the node at `p` alone is nothing to the others. */
  lemma LocalGrows(t: Spots, u: Spots, p: Path)
    requires p in t && p in u && u == t[p := u[p]]
    ensures Grows(t, u, p)
  {}

  lemma FlagsKeep(root: Box, t: Spots, p: Path)
    requires Sound(root, t) && p in t && t[p].queue == []
    ensures Sound(root, t[p := t[p].(built := true, ready := true)])
  {
    hide NoDup;
    assert NoDup(t[p].objects);
    LocalKeeps(root, t, t[p := t[p].(built := true, ready := true)], p);
  }

  lemma AgedKeeps(root: Box, t: Spots, p: Path)
    requires Sound(root, t) && p in t && t[p].built
    ensures var u := Aged(t, p);
            && Sound(root, u) && u == t[p := u[p]]
            && u[p] == t[p].(lifespan := u[p].lifespan, maxLifespan := u[p].maxLifespan)
            && (u[p].objects != [] ==> u[p].lifespan == -1)
  {
    hide NoDup, Doubled, Leaf;
    assert NoDup(t[p].objects);
    LocalKeeps(root, t, Aged(t, p), p);
  }

  lemma SweptKeeps(f: Facts, t: Spots, p: Path)
    requires Sound(f.root, t) && p in t && (t[p].objects != [] ==> t[p].lifespan == -1)
    ensures var u := Swept(f, t, p);
            && Sound(f.root, u) && u == t[p := u[p]] && u[p] == t[p].(objects := u[p].objects)
            && (u[p].objects != [] ==> u[p].lifespan == -1)
            && (forall o :: o in u[p].objects ==> o in t[p].objects && o !in f.marked)
  {
    hide NoDup, Leaf;
    var u := Swept(f, t, p);
    WithinMembers(t[p].objects, Elems(t[p].objects) - f.marked);
    if u[p].objects != [] { assert u[p].objects[0] in u[p].objects; }
    assert NoDup(t[p].objects);
    LocalKeeps(f.root, t, u, p);
  }

  lemma PreparedKeeps(f: Facts, t: Spots, p: Path)
    requires Sound(f.root, t) && p in t
    ensures var u := Prepared(f, t, p);
            && Sound(f.root, u) && p in u && u[p].built && u[p].ready && u[p].queue == [] && Grows(t, u, p)
            && (u[p].objects != [] ==> u[p].lifespan == -1)
            && (forall o :: o in u[p].objects ==> o !in f.marked)
  {
    hide Sound, Refreshed, Aged, Swept, Grows;
    var v := Refreshed(f, t, p);
    RefreshedKeeps(f, t, p);
    var w := Aged(v, p);
    AgedKeeps(f.root, v, p);
    LocalGrows(v, w, p);
    GrowsJoins(t, v, w, p, p);
    SweptKeeps(f, w, p);
    LocalGrows(w, Swept(f, w, p), p);
    GrowsJoins(t, w, Swept(f, w, p), p, p);
  }

  /** A child that dies is a leaf, so nothing is lost with it. */
  lemma DeadIsLeaf(root: Box, t: Spots, r: Path)
    requires Branched(root, t) && Lives(t) && r in t && t[r].lifespan == 0 && t[r].objects == []
    ensures forall q :: q in t && r <= q ==> q == r
  {
    forall q | q in t && r <= q
      ensures |q| == |r|
    {
      assert q[..|r|] == r;
      if |q| > |r| { PrefixIn(root, t, q, |r|); }
    }
  }

  lemma JudgedKeeps(root: Box, t: Spots, p: Path, c: Corner)
    requires Sound(root, t) && p in t
    ensures var u := Judged(t, p + [c]); Sound(root, u) && Grows(t, u, p) && p in u && u[p] == t[p]
  {
    hide NoDup;
    var r := p + [c];
    var u := Judged(t, r);
    assert !(r <= p);
    if r in t && t[r].lifespan == 0 {
      if t[r].objects == [] {
        DeadIsLeaf(root, t, r);
        CutKeeps(root, t, r);
      } else {
        assert NoDup(t[r].objects);
        LocalKeeps(root, t, u, r);
      }
    }
  }

  lemma CutKeeps(root: Box, t: Spots, r: Path)
    requires Sound(root, t) && r != [] && forall q :: q in t && r <= q ==> q == r
    ensures Sound(root, Cut(t, r))
  {
    hide NoDup;
    var u := Cut(t, r);
    forall q: Path, c: Corner | q + [c] in u
      ensures q in u
    {
      assert q in t && (r <= q ==> r <= q + [c]);
    }
    forall q | q in t && Leaf(t, q)
      ensures Leaf(u, q)
    {}
  }

  lemma {:induction false} PrunedKeeps(root: Box, t: Spots, p: Path, c: nat)
    requires Sound(root, t) && p in t && c <= 8
    ensures var u := Pruned(t, p, c); Sound(root, u) && Grows(t, u, p) && p in u && u[p] == t[p]
    decreases 8 - c
  {
    hide Sound, Judged, Grows;
    GrowsSelf(t, p);
    if c < 8 {
      JudgedKeeps(root, t, p, c);
      PrunedKeeps(root, Judged(t, p + [c]), p, c + 1);
      GrowsJoins(t, Judged(t, p + [c]), Pruned(t, p, c), p, p);
    }
  }

  // ---------- relocation ----------

  lemma TakenOut(root: Box, t: Spots, p: Path, o: GameObject)
    requires Sound(root, t) && p in t && o in t[p].objects && t[p].lifespan == -1
    ensures var u := t[p := t[p].(objects := Without(t[p].objects, o))];
            Sound(root, u) && Nowhere(u, o) && forall x :: x in t[p].objects && x != o ==> x in u[p].objects
  {
    hide NoDup, Leaf;
    var u := t[p := t[p].(objects := Without(t[p].objects, o))];
    assert NoDup(t[p].objects);
    WithoutMembers(t[p].objects, o);
    LocalKeeps(root, t, u, p);
  }

  /** The list at `p` may lose `o`, and only that; other lists only grow. */
  lemma RelocatedKeeps(f: Facts, t: Spots, p: Path, o: GameObject)
    requires Sound(f.root, t) && p in t && o in t[p].objects && t[p].lifespan == -1
    ensures var u := Relocated(f, t, p, o);
            && Sound(f.root, u) && Grows(t, u, p) && (forall q :: q in t ==> q in u)
            && u[p] == t[p].(objects := u[p].objects)
            && forall x :: x in t[p].objects && x != o ==> x in u[p].objects
  {
    hide Sound, Inserted, Nowhere, Climbed;
    var v := t[p := t[p].(objects := Without(t[p].objects, o))];
    var q := Climbed(f.root, p, f.BoxOf(o));
    TakenOut(f.root, t, p, o);
    ClimbedIn(f.root, v, p, f.BoxOf(o));
    InsertedKeeps(f, v, q, o);
    InsertedGrows(f, v, q, o, p);
    LocalGrows(t, v, p);
    GrowsJoins(t, v, Inserted(f, v, q, o), p, p);
    InsertedAdds(f, v, q, o);
  }

  lemma ClimbedIn(root: Box, t: Spots, p: Path, box: Box)
    requires Sound(root, t) && p in t
    ensures Climbed(root, p, box) <= p && Climbed(root, p, box) in t
  {
    var q := Climbed(root, p, box);
    PrefixIn(root, t, p, |q|);
    assert q == p[..|q|];
  }

  lemma InsertedAdds(f: Facts, t: Spots, p: Path, o: GameObject)
    ensures var u := Inserted(f, t, p, o);
            forall q :: q in t ==> q in u && u[q] == t[q].(objects := u[q].objects) && t[q].objects <= u[q].objects
  {
    hide Dest;
  }

  lemma {:induction false} AllRelocatedKeeps(f: Facts, t: Spots, p: Path, moved: seq<GameObject>, i: nat)
    requires Sound(f.root, t) && p in t && NoDup(moved) && i <= |moved|
    requires i < |moved| ==> t[p].lifespan == -1
    requires forall j :: i <= j < |moved| ==> moved[j] in t[p].objects
    ensures var u := AllRelocated(f, t, p, moved, i);
            Sound(f.root, u) && Grows(t, u, p) && p in u && u[p] == t[p].(objects := u[p].objects)
    decreases |moved| - i
  {
    hide Sound, Relocated, Grows;
    GrowsSelf(t, p);
    if i < |moved| {
      var v := Relocated(f, t, p, moved[i]);
      RelocatedKeeps(f, t, p, moved[i]);
      AllRelocatedKeeps(f, v, p, moved, i + 1);
      GrowsJoins(t, v, AllRelocated(f, t, p, moved, i), p, p);
    }
  }

  // ---------- the whole visit ----------

  /** The state in which the loop over the children begins. */
  ghost function Below(f: Facts, t: Tree, p: Path): Tree {
    var start := Tree(Prepared(f, t.spots, p), t.dirty);
    Tree(Pruned(start.spots, p, 0), t.dirty - Elems(Moved(start, p)))
  }

  lemma BelowKeeps(f: Facts, t: Tree, p: Path)
    requires Sound(f.root, t.spots) && p in t.spots
    ensures var u, moved := Below(f, t, p).spots, Moved(Tree(Prepared(f, t.spots, p), t.dirty), p);
            && Sound(f.root, u) && Grows(t.spots, u, p)
            && p in u && u[p] == Prepared(f, t.spots, p)[p] && u[p].built && u[p].ready && u[p].queue == []
            && NoDup(moved) && (forall o :: o in moved ==> o in u[p].objects) && (moved != [] ==> u[p].lifespan == -1)
  {
    hide Branched, Lives, Queued, Prepared, Pruned, Grows, NoDup;
    var s := Prepared(f, t.spots, p);
    PreparedKeeps(f, t.spots, p);
    PrunedKeeps(f.root, s, p, 0);
    GrowsJoins(t.spots, s, Pruned(s, p, 0), p, p);
    assert NoDup(s[p].objects);
    WithinMembers(s[p].objects, t.dirty);
    var moved := Moved(Tree(s, t.dirty), p);
    if moved != [] { assert moved[0] in moved; }
  }

  lemma StillListed(before: seq<GameObject>, now: seq<GameObject>, moved: seq<GameObject>)
    requires before <= now && forall o :: o in moved ==> o in before
    ensures forall j :: 0 <= j < |moved| ==> moved[j] in now
  {
    forall j | 0 <= j < |moved|
      ensures moved[j] in now
    {
      assert moved[j] in moved && moved[j] in before;
    }
  }

  /** An update keeps the invariants and, outside its subtree, all nodes and what their lists held. */
  lemma {:induction false} VisitedKeeps(f: Facts, t: Tree, p: Path)
    requires Sound(f.root, t.spots) && p in t.spots
    ensures var u := Visited(f, t, p).spots;
            Sound(f.root, u) && Grows(t.spots, u, p) && p in u && u[p].built && u[p].ready && u[p].queue == []
    decreases Level(RegionAt(f.root, p)), 10
  {
    hide Sound, Prepared, Pruned, AllRelocated, KidsVisited, Grows, NoDup;
    var start := Tree(Prepared(f, t.spots, p), t.dirty);
    var moved := Moved(start, p);
    var u := Below(f, t, p);
    BelowKeeps(f, t, p);
    KidsVisitedKeeps(f, u, p, Kids(u.spots, p), 0);
    var v := KidsVisited(f, u, p, Kids(u.spots, p), 0);
    StillListed(u.spots[p].objects, v.spots[p].objects, moved);
    AllRelocatedKeeps(f, v.spots, p, moved, 0);
    GrowsJoins(t.spots, u.spots, v.spots, p, p);
    GrowsJoins(t.spots, v.spots, AllRelocated(f, v.spots, p, moved, 0), p, p);
  }

  lemma {:induction false} KidsVisitedKeeps(f: Facts, t: Tree, p: Path, flags: set<Corner>, c: nat)
    requires Sound(f.root, t.spots) && p in t.spots && c <= 8
    requires forall d :: d in flags && c <= d ==> p + [d] in t.spots
    ensures var u := KidsVisited(f, t, p, flags, c).spots;
            && Sound(f.root, u) && Grows(t.spots, u, p)
            && p in u && u[p] == t.spots[p].(objects := u[p].objects)
            && t.spots[p].objects <= u[p].objects
    decreases Level(RegionAt(f.root, p)), 8 - c
  {
    hide Sound, Visited, Grows;
    GrowsSelf(t.spots, p);
    if c < 8 {
      if c !in flags || Tiny(RegionAt(f.root, p)) {
        KidsVisitedKeeps(f, t, p, flags, c + 1);
      } else {
        RegionBelow(f.root, p, c);
        var v := Visited(f, t, p + [c]);
        VisitedKeeps(f, t, p + [c]);
        KidGrows(t.spots, v.spots, p, flags, c);
        KidsVisitedKeeps(f, v, p, flags, c + 1);
        GrowsJoins(t.spots, v.spots, KidsVisited(f, t, p, flags, c).spots, p, p);
      }
    }
  }

  /** An update of one child leaves its parent's list in front and the other children in place. */
  lemma KidGrows(t: Spots, u: Spots, p: Path, flags: set<Corner>, c: Corner)
    requires p in t && Grows(t, u, p + [c]) && forall d :: d in flags && c <= d ==> p + [d] in t
    ensures Grows(t, u, p) && p in u && u[p] == t[p].(objects := u[p].objects) && t[p].objects <= u[p].objects
    ensures forall d :: d in flags && c + 1 <= d ==> p + [d] in u
  {
    assert !(p + [c] <= p);
    forall d | d in flags && c + 1 <= d
      ensures p + [d] in u
    {
      UnderCorner(p, c, p + [d]);
    }
    forall q | q in t && p + [c] <= q
      ensures p <= q
    {
      UnderCorner(p, c, q);
    }
  }
}
