/** Which objects an `Update` keeps. */
module Conservation {
  import opened Division
  import opened Geometry
  import opened Layout
  import opened Objects
  import opened Outcomes
  import opened Sequences
  import opened Soundness
  import opened Visits

  /**
    The corners of the node at `a` below which a first visit replaces everything; the wide reading
    also counts those for which the node only lacks a second object.
   */
  ghost function Perils(f: Facts, t: Spots, a: Path, wide: bool): set<nat> {
    if At(t, a).built then {}
    else if wide then Aims(f, RegionAt(f.root, a), At(t, a).objects) else Sends(f, t, a)
  }

  /** On the way from `b` down to `q` no node threatens the corner that leads to `q`. */
  ghost predicate Spared(f: Facts, t: Spots, b: Path, q: Path, wide: bool) {
    b <= q && forall i :: |b| <= i < |q| ==> q[..i] in t && q[i] !in Perils(f, t, q[..i], wide)
  }

  /** The object is listed at such a node. */
  ghost predicate Kept(f: Facts, t: Spots, b: Path, o: GameObject, wide: bool) {
    exists q :: q in t && o in t[q].objects && Spared(f, t, b, q, wide)
  }

  // ---------- the first visit of a node ----------

  /** What `BuildTree` and the flags make of a node that was not visited before. */
  ghost function FirstBuilt(f: Facts, t: Spots, p: Path): Spots {
    var u := Divided(f, t, p);
    u[p := At(u, p).(built := true, ready := true)]
  }

  /** A node on the way to one that is not replaced is not replaced. */
  lemma PrefixStays(p: Path, full: set<nat>, q: Path, i: nat)
    requires i <= |q| && !Replaced(p, full, q)
    ensures !Replaced(p, full, q[..i])
  {}

  lemma SparedStays(f: Facts, t: Spots, p: Path, b: Path, q: Path, wide: bool)
    requires b <= p && p in t && !t[p].built && q in t && Spared(f, t, b, q, wide)
    ensures !Replaced(p, Sends(f, t, p), q) && Spared(f, FirstBuilt(f, t, p), b, q, wide)
  {
    hide Divided, Aims, Fresh;
    DividedLaw(f, t, p);
    var u, full := FirstBuilt(f, t, p), Sends(f, t, p);
    if p <= q && p != q {
      assert q[..|p|] == p;
    }
    forall i | |b| <= i < |q|
      ensures q[..i] in u && q[i] !in Perils(f, u, q[..i], wide)
    {
      PrefixStays(p, full, q, i);
    }
  }

  /** An object of the divided node ends where nothing threatens it. */
  lemma SparedBelow(f: Facts, t: Spots, p: Path, b: Path, q: Path, wide: bool)
    requires Branched(f.root, t) && p in t && !t[p].built && Spared(f, t, b, p, wide)
    requires q in Divided(f, t, p) && p <= q && (q != p ==> q[|p|] in Sends(f, t, p))
    ensures Spared(f, FirstBuilt(f, t, p), b, q, wide)
  {
    hide Divided, Aims, Branched;
    DividedLaw(f, t, p);
    DividedBranched(f, t, p);
    var u, full := FirstBuilt(f, t, p), Sends(f, t, p);
    forall i | |b| <= i < |q|
      ensures q[..i] in u && q[i] !in Perils(f, u, q[..i], wide)
    {
      PrefixIn(f.root, Divided(f, t, p), q, i);
      if i < |p| {
        assert q[..i] == p[..i] && q[i] == p[i];
        PrefixStays(p, full, p, i);
      } else if i == |p| {
        assert q[..i] == p;
      } else {
        assert Replaced(p, full, q[..i]);
        assert Fresh(f, Divided(f, t, p), q[..i], t[p].objects);
      }
    }
  }

  lemma FirstBuiltKeeps(f: Facts, t: Spots, p: Path, b: Path, o: GameObject, wide: bool)
    requires Sound(f.root, t) && b <= p && p in t && !t[p].built && Kept(f, t, b, o, wide)
    ensures Kept(f, FirstBuilt(f, t, p), b, o, wide)
  {
    hide Divided, Spared, Sends, Unique, Lives, Queued;
    var u := FirstBuilt(f, t, p);
    var q :| q in t && o in t[q].objects && Spared(f, t, b, q, wide);
    if q == p {
      var r := DividedPlaces(f, t, p, o);
      SparedBelow(f, t, p, b, r, wide);
      assert r in u && o in u[r].objects;
    } else {
      DividedLaw(f, t, p);
      SparedStays(f, t, p, b, q, wide);
      assert q in u && o in u[q].objects;
    }
  }

  lemma FirstBuiltKept(f: Facts, t: Spots, p: Path, b: Path, o: GameObject)
    requires Sound(f.root, t) && b <= p && p in t && !t[p].built && Kept(f, FirstBuilt(f, t, p), b, o, false)
    ensures Kept(f, t, b, o, false)
  {
    hide Divided, Aims, Sound;
    DividedLaw(f, t, p);
    StayMembers(f, t, p);
    var u, full := FirstBuilt(f, t, p), Sends(f, t, p);
    var q :| q in u && o in u[q].objects && Spared(f, u, b, q, false);
    if Replaced(p, full, q) {
      assert Fresh(f, Divided(f, t, p), q, t[p].objects);
      forall i | |b| <= i < |p|
        ensures p[..i] in t && p[i] !in Perils(f, t, p[..i], false)
      {
        assert q[..i] == p[..i] && q[i] == p[i];
        PrefixStays(p, full, p, i);
      }
      assert Spared(f, t, b, p, false);
    } else {
      forall i | |b| <= i < |q|
        ensures q[..i] in t && q[i] !in Perils(f, t, q[..i], false)
      {
        PrefixStays(p, full, q, i);
      }
      assert Spared(f, t, b, q, false);
    }
  }

  /** An object leaves the tree in a division exactly when it was below a corner that received objects. */
  lemma DividedLoses(f: Facts, t: Spots, p: Path, q: Path, o: GameObject)
    requires Sound(f.root, t) && p in t && q in t && o in t[q].objects
    ensures o in All(Divided(f, t, p)) <==> !Replaced(p, Sends(f, t, p), q)
  {
    hide Divided, Aims, Branched, Lives, Queued, Sends;
    DividedLaw(f, t, p);
    StayMembers(f, t, p);
    var u, full := Divided(f, t, p), Sends(f, t, p);
    if Replaced(p, full, q) {
      forall r | r in u
        ensures o !in u[r].objects
      {
        if Replaced(p, full, r) { assert Fresh(f, u, r, t[p].objects); }
      }
    } else if q == p {
      var r := DividedPlaces(f, t, p, o);
      assert o in u[r].objects;
    } else {
      assert o in u[q].objects;
    }
  }

  /** `BuildTree` keeps all objects exactly when none was below a corner that receives objects. */
  lemma DividedConserves(f: Facts, t: Spots, p: Path)
    requires Sound(f.root, t) && p in t
    ensures All(Divided(f, t, p)) == All(t) <==>
            forall q :: q in t && Replaced(p, Sends(f, t, p), q) ==> t[q].objects == []
  {
    hide Divided, Sends, Sound, Replaced, Only;
    DividedOnly(f, t, p);
    var u := Divided(f, t, p);
    forall q, o | q in t && o in t[q].objects
      ensures o in All(u) <==> !Replaced(p, Sends(f, t, p), q)
    {
      DividedLoses(f, t, p, q, o);
    }
    forall q | q in t && Replaced(p, Sends(f, t, p), q) && t[q].objects != []
      ensures All(u) != All(t)
    {
      assert t[q].objects[0] in t[q].objects;
      AllOf(t, q);
    }
    OnlyAll(t, u);
  }

  lemma OnlyAll(t: Spots, u: Spots)
    requires Only(t, u, {})
    ensures All(u) <= All(t)
  {}

  // ---------- the other steps ----------

  /** Lists, flags and paths agree. */
  ghost predicate SameLists(t: Spots, u: Spots) {
    t.Keys == u.Keys && forall q :: q in t ==> u[q].objects == t[q].objects && u[q].built == t[q].built
  }

  lemma SameKept(f: Facts, t: Spots, u: Spots, b: Path, o: GameObject, wide: bool)
    requires SameLists(t, u)
    ensures Kept(f, t, b, o, wide) <==> Kept(f, u, b, o, wide)
  {
    hide Aims;
    forall q
      ensures Spared(f, t, b, q, wide) <==> Spared(f, u, b, q, wide)
    {}
  }

  lemma SweptKept(f: Facts, t: Spots, p: Path, b: Path, o: GameObject, wide: bool)
    requires p in t && t[p].built && o !in f.marked
    ensures Kept(f, t, b, o, wide) <==> Kept(f, Swept(f, t, p), b, o, wide)
  {
    hide Aims;
    var u := Swept(f, t, p);
    WithinMembers(t[p].objects, Elems(t[p].objects) - f.marked);
    forall q
      ensures Spared(f, t, b, q, wide) <==> Spared(f, u, b, q, wide)
    {}
  }

  lemma JudgedKept(f: Facts, t: Spots, r: Path, b: Path, o: GameObject, wide: bool)
    requires Sound(f.root, t)
    ensures Kept(f, t, b, o, wide) <==> Kept(f, Judged(t, r), b, o, wide)
  {
    hide Unique, Queued, Spared;
    var u := Judged(t, r);
    if r in t && t[r].lifespan == 0 && t[r].objects == [] {
      DeadIsLeaf(f.root, t, r);
      forall q | q in t && q != r
        ensures Spared(f, t, b, q, wide) <==> Spared(f, u, b, q, wide)
      {
        DeadSpares(f, t, u, r, b, q, wide);
      }
    } else {
      SameKept(f, t, u, b, o, wide);
    }
  }

  lemma DeadSpares(f: Facts, t: Spots, u: Spots, r: Path, b: Path, q: Path, wide: bool)
    requires u == Cut(t, r) && r in t && q in t && q != r && forall s :: s in t && r <= s ==> s == r
    ensures Spared(f, t, b, q, wide) <==> Spared(f, u, b, q, wide)
  {
    hide Aims;
    forall i | 0 <= i < |q|
      ensures !(r <= q[..i])
    {
      assert r <= q[..i] ==> r <= q;
    }
  }

  lemma {:induction false} PrunedKept(f: Facts, t: Spots, p: Path, c: nat, b: Path, o: GameObject, wide: bool)
    requires Sound(f.root, t) && p in t && c <= 8
    ensures Kept(f, t, b, o, wide) <==> Kept(f, Pruned(t, p, c), b, o, wide)
    decreases 8 - c
  {
    hide Sound, Judged, Kept;
    if c < 8 {
      JudgedKept(f, t, p + [c], b, o, wide);
      JudgedKeeps(f.root, t, p, c);
      PrunedKept(f, Judged(t, p + [c]), p, c + 1, b, o, wide);
    }
  }

  /** Up to the loop over the children an update of a node with an empty queue keeps what is not threatened. */
  lemma BelowKept(f: Facts, t: Tree, p: Path, b: Path, o: GameObject, wide: bool)
    requires b <= p && Sound(f.root, t.spots) && p in t.spots && t.spots[p].queue == [] && o !in f.marked
    ensures Kept(f, t.spots, b, o, wide) ==> Kept(f, Below(f, t, p).spots, b, o, wide)
    ensures !wide && Kept(f, Below(f, t, p).spots, b, o, wide) ==> Kept(f, t.spots, b, o, wide)
  {
    hide Sound, Refreshed, Aged, Swept, Pruned, Kept;
    var s := t.spots;
    var u := Refreshed(f, s, p);
    RefreshedKept(f, s, p, b, o, wide);
    RefreshedKeeps(f, s, p);
    var v := Aged(u, p);
    AgedKeeps(f.root, u, p);
    SameKept(f, u, v, b, o, wide);
    SweptKept(f, v, p, b, o, wide);
    SweptKeeps(f, v, p);
    PrunedKept(f, Swept(f, v, p), p, 0, b, o, wide);
  }

  lemma RefreshedKept(f: Facts, t: Spots, p: Path, b: Path, o: GameObject, wide: bool)
    requires b <= p && Sound(f.root, t) && p in t && t[p].queue == []
    ensures Kept(f, t, b, o, wide) ==> Kept(f, Refreshed(f, t, p), b, o, wide)
    ensures !wide && Kept(f, Refreshed(f, t, p), b, o, wide) ==> Kept(f, t, b, o, wide)
  {
    hide Sound, Divided, Kept;
    var s := t[p];
    assert s.objects + s.queue == s.objects;
    assert t[p := s.(objects := s.objects + s.queue, queue := [])] == t;
    assert t[p := s.(queue := [])] == t;
    if s.ready {
    } else if !s.built {
      if Kept(f, t, b, o, wide) { FirstBuiltKeeps(f, t, p, b, o, wide); }
      if !wide && Kept(f, FirstBuilt(f, t, p), b, o, wide) { FirstBuiltKept(f, t, p, b, o); }
    } else {
      SameKept(f, t, Refreshed(f, t, p), b, o, wide);
    }
  }

  // ---------- any update ----------

  lemma InsertedSafe(f: Facts, t: Spots, p: Path, x: GameObject, o: GameObject)
    requires Branched(f.root, t) && p in t && Kept(f, t, [], o, true)
    ensures Kept(f, Inserted(f, t, p, x), [], o, true)
  {
    hide Dest, Target;
    var d := Dest(f.root, t, p, f.BoxOf(x));
    if d.Some? {
      var u, r := Inserted(f, t, p, x), d.value;
      DestFits(f.root, t, p, f.BoxOf(x));
      var q :| q in t && o in t[q].objects && Spared(f, t, [], q, true);
      forall i | 0 <= i < |q|
        ensures q[..i] in u && q[i] !in Perils(f, u, q[..i], true)
      {
        PrefixIn(f.root, t, q, i);
        if q[..i] == r {
          StrangerAims(f, RegionAt(f.root, r), t[r].objects, x);
        }
      }
      assert Spared(f, u, [], q, true) && o in u[q].objects;
    }
  }

  /** An object that fits no octant aims at no corner. */
  lemma StrangerAims(f: Facts, region: Box, own: seq<GameObject>, x: GameObject)
    requires Fit(region, f.BoxOf(x), 0) == 8
    ensures Aims(f, region, own + [x]) == Aims(f, region, own)
  {
    assert Target(f, region, x) == 8;
    assert forall o :: o in own + [x] ==> o in own || o == x;
    assert forall o :: o in own ==> o in own + [x];
  }

  lemma RelocatedSafe(f: Facts, t: Spots, p: Path, x: GameObject, o: GameObject)
    requires Sound(f.root, t) && p in t && x in t[p].objects && t[p].lifespan == -1 && t[p].built
    requires Kept(f, t, [], o, true) && o != x
    ensures Kept(f, Relocated(f, t, p, x), [], o, true)
  {
    hide Unique, Lives, Queued, Nowhere, Climbed, Inserted;
    var v := t[p := t[p].(objects := Without(t[p].objects, x))];
    TakenOut(f.root, t, p, x);
    ClimbedIn(f.root, v, p, f.BoxOf(x));
    TakenOutSafe(f, t, v, p, o, x);
    InsertedSafe(f, v, Climbed(f.root, p, f.BoxOf(x)), x, o);
  }

  lemma TakenOutSafe(f: Facts, t: Spots, v: Spots, p: Path, o: GameObject, x: GameObject)
    requires p in t && p in v && v == t[p := v[p]] && t[p].built && v[p].built
    requires forall y :: y in t[p].objects && y != x ==> y in v[p].objects
    requires Kept(f, t, [], o, true) && o != x
    ensures Kept(f, v, [], o, true)
  {
    hide Aims;
    var q :| q in t && o in t[q].objects && Spared(f, t, [], q, true);
    assert Spared(f, v, [], q, true) && o in v[q].objects;
  }

  lemma {:induction false} AllRelocatedSafe(f: Facts, t: Spots, p: Path, moved: seq<GameObject>, i: nat, o: GameObject)
    requires Sound(f.root, t) && p in t && NoDup(moved) && i <= |moved|
    requires (i < |moved| ==> t[p].lifespan == -1) && t[p].built
    requires forall j :: i <= j < |moved| ==> moved[j] in t[p].objects
    requires Kept(f, t, [], o, true) && o !in moved
    ensures Kept(f, AllRelocated(f, t, p, moved, i), [], o, true)
    decreases |moved| - i
  {
    hide Sound, Relocated, Kept;
    if i < |moved| {
      RelocatedKeeps(f, t, p, moved[i]);
      RelocatedSafe(f, t, p, moved[i], o);
      AllRelocatedSafe(f, Relocated(f, t, p, moved[i]), p, moved, i + 1, o);
    }
  }

  /** Whatever else moves, an object that is neither dirty nor marked is kept where nothing threatens it. */
  lemma {:induction false} VisitedSafe(f: Facts, t: Tree, p: Path, o: GameObject)
    requires Sound(f.root, t.spots) && p in t.spots && t.spots[p].queue == []
    requires o !in t.dirty && o !in f.marked && Kept(f, t.spots, [], o, true)
    ensures Kept(f, Visited(f, t, p).spots, [], o, true)
    decreases Level(RegionAt(f.root, p)), 10
  {
    hide Sound, Prepared, Pruned, AllRelocated, KidsVisited, Kept, Grows, NoDup;
    var moved := Moved(Tree(Prepared(f, t.spots, p), t.dirty), p);
    var u := Below(f, t, p);
    BelowKeeps(f, t, p);
    BelowKept(f, t, p, [], o, true);
    KidsVisitedKeeps(f, u, p, Kids(u.spots, p), 0);
    KidsSafe(f, u, p, Kids(u.spots, p), 0, o);
    var v := KidsVisited(f, u, p, Kids(u.spots, p), 0);
    StillListed(u.spots[p].objects, v.spots[p].objects, moved);
    WithinMembers(At(Prepared(f, t.spots, p), p).objects, t.dirty);
    AllRelocatedSafe(f, v.spots, p, moved, 0, o);
  }

  lemma {:induction false} KidsSafe(f: Facts, t: Tree, p: Path, flags: set<Corner>, c: nat, o: GameObject)
    requires Sound(f.root, t.spots) && p in t.spots && c <= 8
    requires forall d :: d in flags && c <= d ==> p + [d] in t.spots
    requires o !in t.dirty && o !in f.marked && Kept(f, t.spots, [], o, true)
    ensures Kept(f, KidsVisited(f, t, p, flags, c).spots, [], o, true)
    decreases Level(RegionAt(f.root, p)), 8 - c
  {
    hide Sound, Visited, Kept, Grows;
    if c < 8 {
      if c !in flags || Tiny(RegionAt(f.root, p)) {
        KidsSafe(f, t, p, flags, c + 1, o);
      } else {
        RegionBelow(f.root, p, c);
        var v := Visited(f, t, p + [c]);
        VisitedKeeps(f, t, p + [c]);
        VisitedOnly(f, t, p + [c]);
        ReadyMeans(f.root, t.spots, p + [c]);
        VisitedSafe(f, t, p + [c], o);
        KidGrows(t.spots, v.spots, p, flags, c);
        KidsSafe(f, v, p, flags, c + 1, o);
      }
    }
  }
}
