/** What one `Update` brings about: every object in place, none dirty or marked, and none from nowhere. */
module Outcomes {
  import opened Division
  import opened Geometry
  import opened Layout
  import opened Objects
  import opened Sequences
  import opened Soundness
  import opened Visits
  import opened Wrappers

  // ---------- every object in place ----------

  lemma Looser(f: Facts, t: Spots, less: set<GameObject>, more: set<GameObject>)
    requires InPlace(f, t, less) && less <= more
    ensures InPlace(f, t, more)
  {}

  lemma ShrunkInPlace(f: Facts, t: Spots, u: Spots, loose: set<GameObject>)
    requires InPlace(f, t, loose)
    requires forall q :: q in u ==> q in t && forall o :: o in u[q].objects ==> o in t[q].objects
    ensures InPlace(f, u, loose)
  {}

  lemma {:induction false} AllInsertedInPlace(f: Facts, t: Spots, list: seq<GameObject>, i: nat, loose: set<GameObject>)
    requires Sound(f.root, t) && NoDup(list) && InPlace(f, t, loose)
    requires forall j :: i <= j < |list| ==> Nowhere(t, list[j])
    ensures InPlace(f, AllInserted(f, t, [], list, i), loose)
    decreases |list| - i
  {
    hide InPlace, Nowhere, Inserted, Unique, Lives, Queued;
    if i < |list| {
      InsertedKeeps(f, t, [], list[i]);
      Looser(f, t, loose, loose + {list[i]});
      InsertedInPlace(f, t, [], list[i], loose);
      forall j | i + 1 <= j < |list|
        ensures Nowhere(Inserted(f, t, [], list[i]), list[j])
      {
        StillNowhere(f, t, [], list[i], list[j]);
      }
      AllInsertedInPlace(f, Inserted(f, t, [], list[i]), list, i + 1, loose);
    }
  }

  lemma RefreshedInPlace(f: Facts, t: Spots, p: Path, loose: set<GameObject>)
    requires Sound(f.root, t) && p in t && InPlace(f, t, loose)
    ensures InPlace(f, Refreshed(f, t, p), loose)
  {
    hide InPlace, Divided, AllInserted, Sound;
    ReadyMeans(f.root, t, p);
    var s := t[p];
    if !s.ready {
      var w;
      if !s.built {
        var v := t[p := s.(objects := s.objects + s.queue, queue := [])];
        JoinedInPlace(f, t, p, loose);
        DividedInPlace(f, v, p, loose);
        w := Divided(f, v, p);
        DividedGrows(f, v, p);
      } else {
        var v := t[p := s.(queue := [])];
        QueueTaken(f.root, t, p);
        NotReadyIsRoot(f.root, t, p);
        ShrunkInPlace(f, t, v, loose);
        AllInsertedInPlace(f, v, s.queue, 0, loose);
        w := AllInserted(f, v, p, s.queue, 0);
        AllInsertedKeeps(f, v, p, s.queue, 0);
      }
      ShrunkInPlace(f, w, Refreshed(f, t, p), loose);
    }
  }

  lemma NotReadyIsRoot(root: Box, t: Spots, p: Path)
    requires Sound(root, t) && p in t && !t[p].ready && t[p].built
    ensures p == []
  {}

  lemma JoinedInPlace(f: Facts, t: Spots, p: Path, loose: set<GameObject>)
    requires p in t && (p != [] ==> t[p].queue == []) && InPlace(f, t, loose)
    ensures InPlace(f, t[p := t[p].(objects := t[p].objects + t[p].queue, queue := [])], loose)
  {}

  lemma BelowInPlace(f: Facts, t: Tree, p: Path, loose: set<GameObject>)
    requires Sound(f.root, t.spots) && p in t.spots && InPlace(f, t.spots, loose)
    ensures InPlace(f, Below(f, t, p).spots, loose)
  {
    hide InPlace, Refreshed, Aged, Swept, Pruned, Sound;
    var u := Refreshed(f, t.spots, p);
    RefreshedInPlace(f, t.spots, p, loose);
    RefreshedKeeps(f, t.spots, p);
    var v := Aged(u, p);
    AgedKeeps(f.root, u, p);
    ShrunkInPlace(f, u, v, loose);
    var w := Swept(f, v, p);
    SweptKeeps(f, v, p);
    ShrunkInPlace(f, v, w, loose);
    PrunedShrinks(w, p, 0);
    ShrunkInPlace(f, w, Pruned(w, p, 0), loose);
  }

  lemma {:induction false} PrunedShrinks(t: Spots, p: Path, c: nat)
    requires c <= 8
    ensures var u := Pruned(t, p, c); forall q :: q in u ==> q in t && u[q].objects == t[q].objects
    decreases 8 - c
  {
    if c < 8 { PrunedShrinks(Judged(t, p + [c]), p, c + 1); }
  }

  /** A moved object that is inserted again is in place. */
  lemma RelocatedInPlace(f: Facts, t: Spots, p: Path, o: GameObject, loose: set<GameObject>)
    requires Sound(f.root, t) && p in t && o in t[p].objects && t[p].lifespan == -1 && InPlace(f, t, loose + {o})
    ensures InPlace(f, Relocated(f, t, p, o), loose)
  {
    hide InPlace, Nowhere, Inserted, Branched, Lives, Queued;
    var v := t[p := t[p].(objects := Without(t[p].objects, o))];
    TakenOut(f.root, t, p, o);
    assert NoDup(t[p].objects);
    WithoutMembers(t[p].objects, o);
    ShrunkInPlace(f, t, v, loose + {o});
    InsertedInPlace(f, v, Climbed(f.root, p, f.BoxOf(o)), o, loose);
  }

  lemma {:induction false} AllRelocatedInPlace(f: Facts, t: Spots, p: Path, moved: seq<GameObject>, i: nat,
                                               loose: set<GameObject>)
    requires Sound(f.root, t) && p in t && NoDup(moved) && i <= |moved| && (i < |moved| ==> t[p].lifespan == -1)
    requires forall j :: i <= j < |moved| ==> moved[j] in t[p].objects
    requires InPlace(f, t, loose + Elems(moved[i..]))
    ensures InPlace(f, AllRelocated(f, t, p, moved, i), loose)
    decreases |moved| - i
  {
    hide Sound, Relocated, InPlace;
    if i < |moved| {
      assert moved[i..] == [moved[i]] + moved[i + 1..];
      Looser(f, t, loose + Elems(moved[i..]), loose + Elems(moved[i + 1..]) + {moved[i]});
      RelocatedKeeps(f, t, p, moved[i]);
      RelocatedInPlace(f, t, p, moved[i], loose + Elems(moved[i + 1..]));
      AllRelocatedInPlace(f, Relocated(f, t, p, moved[i]), p, moved, i + 1, loose);
    } else {
      Looser(f, t, loose + Elems(moved[i..]), loose);
    }
  }

  /** After an update every object with volume, dirty ones elsewhere excepted, is in place. */
  lemma {:induction false} VisitedInPlace(f: Facts, t: Tree, p: Path, ex: set<GameObject>)
    requires Sound(f.root, t.spots) && p in t.spots && InPlace(f, t.spots, t.dirty + ex)
    ensures var u := Visited(f, t, p); InPlace(f, u.spots, u.dirty + ex)
    decreases Level(RegionAt(f.root, p)), 10
  {
    hide Sound, Prepared, Pruned, AllRelocated, KidsVisited, Grows, NoDup, InPlace;
    var moved := Moved(Tree(Prepared(f, t.spots, p), t.dirty), p);
    var u := Below(f, t, p);
    BelowKeeps(f, t, p);
    BelowInPlace(f, t, p, t.dirty + ex);
    Looser(f, u.spots, t.dirty + ex, u.dirty + (ex + Elems(moved)));
    KidsVisitedKeeps(f, u, p, Kids(u.spots, p), 0);
    KidsVisitedInPlace(f, u, p, Kids(u.spots, p), 0, ex + Elems(moved));
    var v := KidsVisited(f, u, p, Kids(u.spots, p), 0);
    StillListed(u.spots[p].objects, v.spots[p].objects, moved);
    assert moved[0..] == moved;
    Looser(f, v.spots, v.dirty + (ex + Elems(moved)), v.dirty + ex + Elems(moved[0..]));
    AllRelocatedInPlace(f, v.spots, p, moved, 0, v.dirty + ex);
  }

  lemma {:induction false} KidsVisitedInPlace(f: Facts, t: Tree, p: Path, flags: set<Corner>, c: nat,
                                              ex: set<GameObject>)
    requires Sound(f.root, t.spots) && p in t.spots && c <= 8 && InPlace(f, t.spots, t.dirty + ex)
    requires forall d :: d in flags && c <= d ==> p + [d] in t.spots
    ensures var u := KidsVisited(f, t, p, flags, c); InPlace(f, u.spots, u.dirty + ex)
    decreases Level(RegionAt(f.root, p)), 8 - c
  {
    hide Sound, Visited, Grows, InPlace;
    if c < 8 {
      if c !in flags || Tiny(RegionAt(f.root, p)) {
        KidsVisitedInPlace(f, t, p, flags, c + 1, ex);
      } else {
        RegionBelow(f.root, p, c);
        var v := Visited(f, t, p + [c]);
        VisitedKeeps(f, t, p + [c]);
        VisitedInPlace(f, t, p + [c], ex);
        KidGrows(t.spots, v.spots, p, flags, c);
        KidsVisitedInPlace(f, v, p, flags, c + 1, ex);
      }
    }
  }

  // ---------- none from nowhere ----------

  /** The objects the tree lists. */
  ghost function All(t: Spots): set<GameObject> {
    set q, o | q in t && o in t[q].objects :: o
  }

  lemma AllOf(t: Spots, q: Path)
    requires q in t
    ensures forall o :: o in t[q].objects ==> o in All(t)
  {}

  /** Every list holds only objects listed before, or given ones. */
  ghost predicate Only(t: Spots, u: Spots, more: set<GameObject>) {
    forall q, o :: q in u && o in u[q].objects ==> o in All(t) || o in more
  }

  lemma OnlyJoins(t: Spots, u: Spots, v: Spots, a: set<GameObject>, b: set<GameObject>, more: set<GameObject>)
    requires Only(t, u, a) && Only(u, v, b) && a <= more && b <= more
    ensures Only(t, v, more)
  {}

  lemma ShrunkOnly(t: Spots, u: Spots)
    requires forall q :: q in u ==> q in t && forall o :: o in u[q].objects ==> o in t[q].objects
    ensures Only(t, u, {})
  {}

  lemma InsertedOnly(f: Facts, t: Spots, p: Path, o: GameObject)
    ensures Only(t, Inserted(f, t, p, o), {o})
  {
    hide Dest;
  }

  lemma {:induction false} AllInsertedOnly(f: Facts, t: Spots, p: Path, list: seq<GameObject>, i: nat)
    ensures Only(t, AllInserted(f, t, p, list, i), Elems(list))
    decreases |list| - i
  {
    hide Inserted, Only;
    if i < |list| {
      InsertedOnly(f, t, p, list[i]);
      AllInsertedOnly(f, Inserted(f, t, p, list[i]), p, list, i + 1);
      OnlyJoins(t, Inserted(f, t, p, list[i]), AllInserted(f, t, p, list, i), {list[i]}, Elems(list), Elems(list));
    } else {
      ShrunkOnly(t, t);
      OnlyMore(t, t, {}, Elems(list));
    }
  }

  lemma OnlyMore(t: Spots, u: Spots, less: set<GameObject>, more: set<GameObject>)
    requires Only(t, u, less) && less <= more
    ensures Only(t, u, more)
  {}

  lemma DividedOnly(f: Facts, t: Spots, p: Path)
    requires p in t
    ensures Only(t, Divided(f, t, p), {})
  {
    hide Divided, Sends, Stay, Aims;
    DividedLaw(f, t, p);
    StayMembers(f, t, p);
    AllOf(t, p);
    var u, full := Divided(f, t, p), Sends(f, t, p);
    forall q, o | q in u && o in u[q].objects
      ensures o in All(t)
    {
      if Replaced(p, full, q) {
        assert Fresh(f, u, q, t[p].objects);
      } else {
        assert q in t && o in t[q].objects;
      }
    }
  }

  lemma RefreshedOnly(f: Facts, t: Spots, p: Path)
    requires Sound(f.root, t) && p in t
    ensures Only(t, Refreshed(f, t, p), Elems(t[p].queue))
  {
    hide Sound, Divided, AllInserted, Only;
    var s := t[p];
    ReadyMeans(f.root, t, p);
    ShrunkOnly(t, t);
    OnlyMore(t, t, {}, Elems(s.queue));
    if !s.ready {
      if !s.built {
        var v := t[p := s.(objects := s.objects + s.queue, queue := [])];
        JoinedOnly(t, p);
        DividedOnly(f, v, p);
        OnlyJoins(t, v, Divided(f, v, p), Elems(s.queue), {}, Elems(s.queue));
        FlaggedOnly(t, Divided(f, v, p), p, Elems(s.queue));
      } else {
        var v := t[p := s.(queue := [])];
        ShrunkOnly(t, v);
        AllInsertedOnly(f, v, p, s.queue, 0);
        OnlyJoins(t, v, AllInserted(f, v, p, s.queue, 0), {}, Elems(s.queue), Elems(s.queue));
        FlaggedOnly(t, AllInserted(f, v, p, s.queue, 0), p, Elems(s.queue));
      }
    }
  }

  lemma JoinedOnly(t: Spots, p: Path)
    requires p in t
    ensures Only(t, t[p := t[p].(objects := t[p].objects + t[p].queue, queue := [])], Elems(t[p].queue))
  {}

  lemma FlaggedOnly(t: Spots, u: Spots, p: Path, more: set<GameObject>)
    requires Only(t, u, more)
    ensures Only(t, u[p := At(u, p).(built := true, ready := true)], more)
  {}

  lemma BelowOnly(f: Facts, t: Tree, p: Path)
    requires Sound(f.root, t.spots) && p in t.spots
    ensures Only(t.spots, Below(f, t, p).spots, Elems(t.spots[p].queue))
  {
    hide Refreshed, Aged, Swept, Pruned, Sound, Only;
    var u := Refreshed(f, t.spots, p);
    RefreshedOnly(f, t.spots, p);
    RefreshedKeeps(f, t.spots, p);
    var v := Aged(u, p);
    AgedKeeps(f.root, u, p);
    var w := Swept(f, v, p);
    SweptKeeps(f, v, p);
    PrunedShrinks(w, p, 0);
    ShrunkOnly(u, Pruned(w, p, 0));
    OnlyJoins(t.spots, u, Pruned(w, p, 0), Elems(t.spots[p].queue), {}, Elems(t.spots[p].queue));
  }

  /** When an object is relocated every other object keeps its place. */
  lemma RelocatedOthers(f: Facts, t: Spots, p: Path, o: GameObject)
    requires p in t && NoDup(t[p].objects) && o in t[p].objects
    ensures var u := Relocated(f, t, p, o);
            && (forall q, x :: q in u && x in u[q].objects && x != o ==> q in t && x in t[q].objects)
            && (forall q, x :: q in t && x in t[q].objects && x != o ==> q in u && x in u[q].objects)
  {
    hide Dest, Climbed;
    WithoutMembers(t[p].objects, o);
  }

  /** ... and it ends at or below the first node upwards around it, dropped only if it lies outside the root. */
  lemma RelocatedLands(f: Facts, t: Spots, p: Path, o: GameObject) returns (q: Path)
    requires p in t
    ensures var u, box := Relocated(f, t, p, o), f.BoxOf(o);
            if q in u && o in u[q].objects then !box.IsPoint() ==> Around(f.root, p, box) <= q
            else !f.root.Contains(box)
  {
    hide Dest;
    var v := t[p := t[p].(objects := Without(t[p].objects, o))];
    var a := Climbed(f.root, p, f.BoxOf(o));
    var d := Dest(f.root, v, a, f.BoxOf(o));
    if d.Some? {
      q := d.value;
      if !f.BoxOf(o).IsPoint() { DestHolds(f.root, v, a, f.BoxOf(o)); }
    } else {
      q := [];
      DestNone(f.root, v, a, f.BoxOf(o));
    }
  }

  /** Called on a node that does not hold the box, `Insert` leaves it there or goes up to one that does. */
  lemma {:induction false} DestUp(root: Box, t: Spots, p: Path, box: Box)
    requires Branched(root, t) && p in t && !RegionAt(root, p).Contains(box) && Dest(root, t, p, box).Some?
    ensures var q := Dest(root, t, p, box).value;
            RegionAt(root, q).Contains(box) || (q == p && (Leaf(t, p) || Tiny(RegionAt(root, p))))
    decreases |p|
  {
    hide Octant, Level, Tiny;
    if p != [] && !(t[p].objects == [] && Leaf(t, p)) && !Tiny(RegionAt(root, p)) {
      assert p == Up(p) + [Last(p)];
      if RegionAt(root, Up(p)).Contains(box) {
        DestHolds(root, t, Up(p), box);
      } else {
        DestUp(root, t, Up(p), box);
      }
    }
  }

  /**
    Where `Relocated` puts an object: in a region around it, unless it stays or goes to the root, and below its node
    if that was around it.
   */
  lemma Landing(f: Facts, t: Spots, p: Path, o: GameObject) returns (d: Option<Path>)
    requires Branched(f.root, t) && p in t
    ensures var v := t[p := t[p].(objects := Without(t[p].objects, o))];
            Relocated(f, t, p, o) == (match d case None => v case Some(q) => Put(v, q, o))
    ensures d == None ==> !f.root.Contains(f.BoxOf(o))
    ensures d.Some? ==> RegionAt(f.root, d.value).Contains(f.BoxOf(o)) || d.value == p || d.value == []
    ensures d.Some? && d.value !in t ==>
              d.value != [] && Up(d.value) in t && !Tiny(RegionAt(f.root, Up(d.value)))
    ensures RegionAt(f.root, p).Contains(f.BoxOf(o)) ==>
            d.Some? && p <= d.value && RegionAt(f.root, d.value).Contains(f.BoxOf(o))
  {
    hide Dest, Octant, Level, Tiny, Box.Contains, Box.IsPoint, RegionAt;
    var v := t[p := t[p].(objects := Without(t[p].objects, o))];
    assert v.Keys == t.Keys;
    var box := f.BoxOf(o);
    var a := Climbed(f.root, p, box);
    PrefixIn(f.root, v, p, |a|);
    assert a == p[..|a|];
    d := Dest(f.root, v, a, box);
    if d.Some? {
      DestFits(f.root, v, a, box);
      if a == [] || RegionAt(f.root, a).Contains(box) {
        DestHolds(f.root, v, a, box);
      } else {
        DestUp(f.root, v, a, box);
      }
    } else {
      DestNone(f.root, v, a, box);
    }
  }

  /** An object outside the root's region stays at its node or is dropped. */
  lemma LandingOutside(f: Facts, t: Spots, p: Path, o: GameObject) returns (d: Option<Path>)
    requires Branched(f.root, t) && p in t && f.root.NonNegative() && !f.root.Contains(f.BoxOf(o))
    ensures var v := t[p := t[p].(objects := Without(t[p].objects, o))];
            Relocated(f, t, p, o) == (match d case None => v case Some(q) => Put(v, q, o))
    ensures d.Some? ==> d.value == p
  {
    hide Dest, Octant, Level, Tiny, Box.Contains, Box.IsPoint, Box.NonNegative, RegionAt;
    var v, box := t[p := t[p].(objects := Without(t[p].objects, o))], f.BoxOf(o);
    assert v.Keys == t.Keys;
    var a := Climbed(f.root, p, box);
    OutsideRoot(f.root, a, box);
    PrefixIn(f.root, v, p, 0);
    d := Dest(f.root, v, a, box);
    if d.Some? {
      DestUp(f.root, v, a, box);
      OutsideRoot(f.root, d.value, box);
      if p != [] { assert p[..0] == [] && [] + [p[0]] in v; }
    }
  }

  lemma {:induction false} AllRelocatedOnly(f: Facts, t: Spots, p: Path, moved: seq<GameObject>, i: nat)
    requires Sound(f.root, t) && p in t && NoDup(moved) && i <= |moved|
    requires i < |moved| ==> t[p].lifespan == -1
    requires forall j :: i <= j < |moved| ==> moved[j] in t[p].objects
    ensures var u := AllRelocated(f, t, p, moved, i);
            forall q, x :: q in u && x in u[q].objects && x !in moved ==> q in t && x in t[q].objects
    ensures Only(t, AllRelocated(f, t, p, moved, i), {})
    decreases |moved| - i
  {
    hide Sound, Relocated;
    if i < |moved| {
      var v := Relocated(f, t, p, moved[i]);
      RelocatedKeeps(f, t, p, moved[i]);
      SoundLists(f.root, t, p);
      RelocatedOthers(f, t, p, moved[i]);
      AllOf(t, p);
      AllRelocatedOnly(f, v, p, moved, i + 1);
    }
  }

  lemma SoundLists(root: Box, t: Spots, p: Path)
    requires Sound(root, t) && p in t
    ensures NoDup(t[p].objects)
  {}

  /** An update lists no object that was neither in the tree nor in the node's queue, and makes none dirty. */
  lemma {:induction false} VisitedOnly(f: Facts, t: Tree, p: Path)
    requires Sound(f.root, t.spots) && p in t.spots
    ensures var u := Visited(f, t, p);
            Only(t.spots, u.spots, Elems(t.spots[p].queue)) && u.dirty <= t.dirty
    decreases Level(RegionAt(f.root, p)), 10
  {
    hide Sound, Prepared, Pruned, AllRelocated, KidsVisited, Grows, NoDup, Only;
    var moved := Moved(Tree(Prepared(f, t.spots, p), t.dirty), p);
    var u := Below(f, t, p);
    BelowKeeps(f, t, p);
    BelowOnly(f, t, p);
    KidsVisitedKeeps(f, u, p, Kids(u.spots, p), 0);
    KidsVisitedOnly(f, u, p, Kids(u.spots, p), 0);
    var v := KidsVisited(f, u, p, Kids(u.spots, p), 0);
    StillListed(u.spots[p].objects, v.spots[p].objects, moved);
    AllRelocatedOnly(f, v.spots, p, moved, 0);
    var more := Elems(t.spots[p].queue);
    OnlyJoins(t.spots, u.spots, v.spots, more, {}, more);
    OnlyJoins(t.spots, v.spots, AllRelocated(f, v.spots, p, moved, 0), more, {}, more);
  }

  lemma {:induction false} KidsVisitedOnly(f: Facts, t: Tree, p: Path, flags: set<Corner>, c: nat)
    requires Sound(f.root, t.spots) && p in t.spots && c <= 8
    requires forall d :: d in flags && c <= d ==> p + [d] in t.spots
    ensures var u := KidsVisited(f, t, p, flags, c); Only(t.spots, u.spots, {}) && u.dirty <= t.dirty
    decreases Level(RegionAt(f.root, p)), 8 - c
  {
    hide Sound, Visited, Grows, Only;
    if c < 8 {
      if c !in flags || Tiny(RegionAt(f.root, p)) {
        KidsVisitedOnly(f, t, p, flags, c + 1);
      } else {
        RegionBelow(f.root, p, c);
        var v := Visited(f, t, p + [c]);
        VisitedKeeps(f, t, p + [c]);
        VisitedOnly(f, t, p + [c]);
        ReadyMeans(f.root, t.spots, p + [c]);
        KidGrows(t.spots, v.spots, p, flags, c);
        KidsVisitedOnly(f, v, p, flags, c + 1);
        OnlyJoins(t.spots, v.spots, KidsVisited(f, t, p, flags, c).spots, Elems(t.spots[p + [c]].queue), {}, {});
      }
    } else {
      ShrunkOnly(t.spots, t.spots);
    }
  }

  // ---------- nothing dirty or marked ----------

  ghost predicate Bad(f: Facts, t: Tree, o: GameObject) {
    o in t.dirty || o in f.marked
  }

  /** Whatever is dirty or marked afterwards is not at `p` or below it, and was there before. */
  ghost predicate Tidied(f: Facts, t: Tree, u: Tree, p: Path) {
    forall q, o :: q in u.spots && o in u.spots[q].objects && Bad(f, u, o) ==>
      !(p <= q) && q in t.spots && o in t.spots[q].objects
  }

  /** While the children from `c` on, among `flags`, are not visited yet, only they may hold such objects. */
  ghost predicate TidyUpTo(f: Facts, t: Tree, p: Path, flags: set<Corner>, c: nat) {
    forall q, o :: q in t.spots && p <= q && o in t.spots[q].objects && Bad(f, t, o) ==>
      q != p && c <= q[|p|] && q[|p|] in flags
  }

  lemma DividedOutside(f: Facts, t: Spots, p: Path)
    requires p in t
    ensures SameOutside(t, Divided(f, t, p), p)
  {
    hide Divided, Sends, Stay, Fresh;
    DividedLaw(f, t, p);
  }

  lemma RefreshedOutside(f: Facts, t: Spots, p: Path)
    requires Sound(f.root, t) && p in t
    ensures SameOutside(t, Refreshed(f, t, p), p)
  {
    hide Sound, Divided, AllInserted;
    var s := t[p];
    ReadyMeans(f.root, t, p);
    if !s.ready {
      if !s.built {
        DividedOutside(f, t[p := s.(objects := s.objects + s.queue, queue := [])], p);
      } else {
        NotReadyIsRoot(f.root, t, p);
      }
    }
  }

  /** Up to the loop over its children an update changes nothing outside the subtree. */
  lemma BelowOutside(f: Facts, t: Tree, p: Path)
    requires Sound(f.root, t.spots) && p in t.spots
    ensures SameOutside(t.spots, Below(f, t, p).spots, p)
  {
    hide Sound, Refreshed, Pruned, Unmarked, Countdown, Moved;
    RefreshedOutside(f, t.spots, p);
    RefreshedKeeps(f, t.spots, p);
    PrunedOutside(Prepared(f, t.spots, p), p, 0);
  }

  lemma {:induction false} PrunedOutside(t: Spots, p: Path, c: nat)
    requires c <= 8
    ensures SameOutside(t, Pruned(t, p, c), p)
    decreases 8 - c
  {
    if c < 8 {
      forall q | q in t && p + [c] <= q
        ensures p <= q
      {
        UnderCorner(p, c, q);
      }
      assert p <= p + [c];
      PrunedOutside(Judged(t, p + [c]), p, c + 1);
    }
  }

  lemma BelowTidy(f: Facts, t: Tree, p: Path)
    requires Sound(f.root, t.spots) && p in t.spots
    ensures var u := Below(f, t, p); TidyUpTo(f, u, p, Kids(u.spots, p), 0)
  {
    hide Unique, Lives, Queued, Prepared, Pruned, NoDup;
    BelowKeeps(f, t, p);
    PreparedKeeps(f, t.spots, p);
    var u := Below(f, t, p);
    WithinMembers(u.spots[p].objects, t.dirty);
    forall q | q in u.spots && p <= q && q != p
      ensures q[|p|] in Kids(u.spots, p)
    {
      PrefixIn(f.root, u.spots, q, |p|);
      assert q[..|p|] == p;
    }
  }

  lemma TidyStep(f: Facts, t: Tree, v: Tree, p: Path, flags: set<Corner>, c: Corner)
    requires TidyUpTo(f, t, p, flags, c) && Tidied(f, t, v, p + [c]) && v.dirty <= t.dirty
    ensures TidyUpTo(f, v, p, flags, c + 1)
  {
    forall q, o | q in v.spots && p <= q && o in v.spots[q].objects && Bad(f, v, o)
      ensures q != p && c + 1 <= q[|p|] && q[|p|] in flags
    {
      UnderCorner(p, c, q);
      assert Bad(f, t, o);
    }
  }

  lemma TidySkip(f: Facts, root: Box, t: Tree, p: Path, flags: set<Corner>, c: Corner)
    requires Branched(root, t.spots) && TidyUpTo(f, t, p, flags, c) && (c !in flags || Tiny(RegionAt(root, p)))
    ensures TidyUpTo(f, t, p, flags, c + 1)
  {
    forall q | q in t.spots && p <= q && q != p
      ensures !Tiny(RegionAt(root, p))
    {
      PrefixIn(root, t.spots, q, |p|);
      assert q[..|p|] == p;
    }
  }

  lemma {:induction false} KidsVisitedTidy(f: Facts, t: Tree, p: Path, flags: set<Corner>, c: nat)
    requires Sound(f.root, t.spots) && p in t.spots && c <= 8 && TidyUpTo(f, t, p, flags, c)
    requires forall d :: d in flags && c <= d ==> p + [d] in t.spots
    ensures Tidied(f, t, KidsVisited(f, t, p, flags, c), p)
    decreases Level(RegionAt(f.root, p)), 8 - c
  {
    hide Unique, Lives, Queued, Visited, Grows, Bad;
    if c < 8 {
      if c !in flags || Tiny(RegionAt(f.root, p)) {
        TidySkip(f, f.root, t, p, flags, c);
        KidsVisitedTidy(f, t, p, flags, c + 1);
      } else {
        RegionBelow(f.root, p, c);
        var v := Visited(f, t, p + [c]);
        VisitedKeeps(f, t, p + [c]);
        VisitedOnly(f, t, p + [c]);
        VisitedTidy(f, t, p + [c]);
        KidGrows(t.spots, v.spots, p, flags, c);
        TidyStep(f, t, v, p, flags, c);
        KidsVisitedTidy(f, v, p, flags, c + 1);
        var u := KidsVisited(f, v, p, flags, c + 1);
        KidsVisitedKeeps(f, v, p, flags, c + 1);
        KidsVisitedOnly(f, v, p, flags, c + 1);
        TidiedJoins(f, t, v, u, p, p + [c]);
      }
    }
  }

  lemma TidiedJoins(f: Facts, t: Tree, v: Tree, u: Tree, p: Path, r: Path)
    requires Tidied(f, t, v, r) && Tidied(f, v, u, p) && u.dirty <= v.dirty
    ensures Tidied(f, t, u, p)
  {
    forall q, o | q in u.spots && o in u.spots[q].objects && Bad(f, u, o)
      ensures !(p <= q) && q in t.spots && o in t.spots[q].objects
    {
      assert Bad(f, v, o);
    }
  }

  /** After an update nothing at the node or below is dirty or marked; such objects elsewhere stay where they were. */
  lemma {:induction false} VisitedTidy(f: Facts, t: Tree, p: Path)
    requires Sound(f.root, t.spots) && p in t.spots
    ensures Tidied(f, t, Visited(f, t, p), p)
    decreases Level(RegionAt(f.root, p)), 10
  {
    hide Sound, Prepared, Pruned, AllRelocated, KidsVisited, Grows, NoDup, Only, Tidied, TidyUpTo;
    var moved := Moved(Tree(Prepared(f, t.spots, p), t.dirty), p);
    var u := Below(f, t, p);
    BelowKeeps(f, t, p);
    BelowOutside(f, t, p);
    BelowTidy(f, t, p);
    var flags := Kids(u.spots, p);
    KidsVisitedTidy(f, u, p, flags, 0);
    KidsVisitedKeeps(f, u, p, flags, 0);
    KidsVisitedOnly(f, u, p, flags, 0);
    var v := KidsVisited(f, u, p, flags, 0);
    StillListed(u.spots[p].objects, v.spots[p].objects, moved);
    AllRelocatedOnly(f, v.spots, p, moved, 0);
    forall o | o in moved
      ensures !Bad(f, v, o)
    {
      MovedClean(f, t, p, o);
    }
    TidyEnd(f, t, u, v, Visited(f, t, p), p, moved);
  }

  lemma MovedClean(f: Facts, t: Tree, p: Path, o: GameObject)
    requires Sound(f.root, t.spots) && p in t.spots
    requires o in Moved(Tree(Prepared(f, t.spots, p), t.dirty), p)
    ensures o !in f.marked && o !in Below(f, t, p).dirty
  {
    hide Sound, Prepared, Pruned;
    PreparedKeeps(f, t.spots, p);
    WithinMembers(Prepared(f, t.spots, p)[p].objects, t.dirty);
  }

  lemma TidyEnd(f: Facts, t: Tree, u: Tree, v: Tree, w: Tree, p: Path, moved: seq<GameObject>)
    requires SameOutside(t.spots, u.spots, p) && Tidied(f, u, v, p) && w.dirty == v.dirty
    requires forall q, x :: q in w.spots && x in w.spots[q].objects && x !in moved ==>
      q in v.spots && x in v.spots[q].objects
    requires forall o :: o in moved ==> !Bad(f, v, o)
    ensures Tidied(f, t, w, p)
  {
    forall q, o | q in w.spots && o in w.spots[q].objects && Bad(f, w, o)
      ensures !(p <= q) && q in t.spots && o in t.spots[q].objects
    {
      assert Bad(f, v, o);
    }
  }

  // ---------- age and death ----------

  /** What the loop over the children makes of each: it dies, lives on, or is left alone. */
  lemma {:induction false} PrunedExactly(t: Spots, p: Path, c: nat, k: Corner)
    requires c <= 8
    ensures var u, r := Pruned(t, p, c), p + [k];
            if r in t && c <= k && t[r].lifespan == 0 && t[r].objects == [] then r !in u
            else if r in t && c <= k && t[r].lifespan == 0 then r in u && u[r] == t[r].(lifespan := -1)
            else (r in u <==> r in t) && (r in t ==> u[r] == t[r])
    decreases 8 - c
  {
    if c < 8 {
      UnderCorner(p, c, p + [k]);
      PrunedExactly(Judged(t, p + [c]), p, c + 1, k);
    }
  }

  /** On a node that was visited before exactly the children die whose countdown is over and that hold nothing. */
  lemma ReadyReaps(f: Facts, t: Tree, p: Path, k: Corner)
    requires p in t.spots && t.spots[p].ready
    ensures var u, r := Below(f, t, p).spots, p + [k];
            && (r in u <==> r in t.spots && !(t.spots[r].lifespan == 0 && t.spots[r].objects == []))
            && (r in u ==> u[r] == t.spots[r].(lifespan :=
                              if t.spots[r].lifespan == 0 then -1 else t.spots[r].lifespan))
  {
    hide Pruned, Unmarked, Countdown, Moved;
    PrunedExactly(Prepared(f, t.spots, p), p, 0, k);
    assert p + [k] != p;
  }

  /**
    ... and its own countdown goes on by one step. In an empty leaf it starts at the limit, or falls by one while it is
    above zero; while there are children but no objects it stands still; objects end it and double the limit if it was
    running and the limit was at most 64. The limit is a signed byte.
   */
  lemma ReadyAges(f: Facts, t: Tree, p: Path)
    requires Sound(f.root, t.spots) && p in t.spots && t.spots[p].ready
    ensures var s, u := t.spots[p], Visited(f, t, p).spots;
            && p in u
            && (s.objects == [] && Leaf(t.spots, p) ==>
                  && u[p].maxLifespan == s.maxLifespan
                  && (s.lifespan == -1 ==> u[p].lifespan == s.maxLifespan)
                  && (s.lifespan > 0 ==> u[p].lifespan == s.lifespan - 1)
                  && (s.lifespan == 0 || s.lifespan < -1 ==> u[p].lifespan == s.lifespan))
            && (s.objects == [] && !Leaf(t.spots, p) ==>
                  u[p].lifespan == s.lifespan && u[p].maxLifespan == s.maxLifespan)
            && (s.objects != [] ==> u[p].lifespan == -1)
            && (s.objects != [] && (s.lifespan == -1 || s.maxLifespan > 64) ==> u[p].maxLifespan == s.maxLifespan)
            && (s.objects != [] && s.lifespan != -1 && s.maxLifespan <= 64 ==>
                  -128 <= u[p].maxLifespan < 128 && (2 * s.maxLifespan - u[p].maxLifespan) % 256 == 0)
  {
    hide Sound, Pruned, AllRelocated, KidsVisited, Grows, NoDup, Unmarked, Leaf;
    var moved := Moved(Tree(Prepared(f, t.spots, p), t.dirty), p);
    var u := Below(f, t, p);
    BelowKeeps(f, t, p);
    KidsVisitedKeeps(f, u, p, Kids(u.spots, p), 0);
    var v := KidsVisited(f, u, p, Kids(u.spots, p), 0);
    StillListed(u.spots[p].objects, v.spots[p].objects, moved);
    AllRelocatedKeeps(f, v.spots, p, moved, 0);
  }

  /** Every object that moved is in the tree again, unless it lies outside the root's region. */
  lemma {:induction false} AllRelocatedLand(f: Facts, t: Spots, p: Path, moved: seq<GameObject>, i: nat)
    requires Sound(f.root, t) && p in t && NoDup(moved) && i <= |moved|
    requires i < |moved| ==> t[p].lifespan == -1
    requires forall j :: i <= j < |moved| ==> moved[j] in t[p].objects
    ensures All(t) - All(AllRelocated(f, t, p, moved, i)) <= Elems(moved[i..])
    ensures forall j :: i <= j < |moved| ==>
              moved[j] in All(AllRelocated(f, t, p, moved, i)) || !f.root.Contains(f.BoxOf(moved[j]))
    decreases |moved| - i
  {
    hide Sound, Relocated, Box.Contains;
    if i < |moved| {
      var v := Relocated(f, t, p, moved[i]);
      RelocatedKeeps(f, t, p, moved[i]);
      SoundLists(f.root, t, p);
      RelocatedOthers(f, t, p, moved[i]);
      var q := RelocatedLands(f, t, p, moved[i]);
      OthersStay(t, v, moved[i]);
      AllRelocatedLand(f, v, p, moved, i + 1);
      assert moved[i..] == [moved[i]] + moved[i + 1..];
      assert moved[i] !in moved[i + 1..];
    }
  }

  lemma OthersStay(t: Spots, u: Spots, o: GameObject)
    requires forall q, x :: q in t && x in t[q].objects && x != o ==> q in u && x in u[q].objects
    ensures All(t) - All(u) <= {o}
  {}
}
