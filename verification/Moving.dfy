/** An update of a fully built tree in which at most two objects have left the regions of their nodes. */
module Moving {
  import opened Conservation
  import opened Division
  import opened Geometry
  import opened Layout
  import opened Objects
  import opened Outcomes
  import opened Sequences
  import opened Settling
  import opened Soundness
  import opened Visits
  import opened Wrappers

  // ---------- how far an update has come ----------

  /** The node at `q` is done with when the update is at the node at `p`, its children before corner `c` behind it. */
  ghost predicate Done(p: Path, c: nat, q: Path) {
    || (exists i :: 0 <= i < |p| && i < |q| && q[..i] == p[..i] && q[i] < p[i])
    || (p <= q && p != q && q[|p|] < c)
  }

  /** Going down to a child changes nothing, and coming back makes its subtree done. */
  lemma DoneSteps(p: Path, c: Corner, q: Path)
    ensures Done(p, c, q) ==> Done(p + [c], 0, q)
    ensures Done(p + [c], 8, q) ==> Done(p, c + 1, q)
    ensures Done(p, c, q) ==> Done(p, c + 1, q)
  {
    var r := p + [c];
    UnderCorner(p, c, q);
    assert r[..|p|] == p;
    if i :| 0 <= i < |p| && i < |q| && q[..i] == p[..i] && q[i] < p[i] {
      assert r[..i] == p[..i] && r[i] == p[i];
    } else if p <= q && p != q && q[|p|] < c {
      assert q[..|p|] == r[..|p|] && q[|p|] < r[|p|];
    }
    if i :| 0 <= i < |r| && i < |q| && q[..i] == r[..i] && q[i] < r[i] {
      if i < |p| {
        assert r[..i] == p[..i] && r[i] == p[i];
      } else {
        assert q[..|p|] == p;
      }
    }
  }

  lemma NotDone(p: Path, q: Path)
    requires q <= p
    ensures !Done(p, 8, q)
  {
    forall i | 0 <= i < |p| && i < |q|
      ensures q[i] == p[i]
    {}
  }

  /** Everything below a node whose children are visited is done. */
  lemma DoneBelow(p: Path, q: Path)
    requires p <= q && q != p
    ensures Done(p, 8, q)
  {
    var c: Corner := q[|p|];
  }

  lemma AheadBelow(p: Path, q: Path)
    requires p <= q
    ensures !Done(p, 0, q)
  {
    forall i | 0 <= i < |p| && i < |q|
      ensures q[i] == p[i]
    {}
  }

  // ---------- the invariant ----------

  /** Not marked, and out of the node's region, but not of the root's. */
  ghost predicate Stray(f: Facts, q: Path, o: GameObject) {
    o !in f.marked && !Keeps(f, q, o)
  }

  /** Of the objects `d`, the unmarked ones that have left their node's region and are still ahead of the update. */
  ghost function Roamers(f: Facts, t: Spots, d: set<GameObject>, p: Path, c: nat): set<GameObject> {
    set q, o | q in t && !Done(p, c, q) && o in t[q].objects && o in d && Stray(f, q, o) :: o
  }

  /** A first visit of the node loses nothing. */
  ghost predicate Mild(f: Facts, t: Spots, q: Path) {
    Leaf(t, q) || Sends(f, t, q) == {}
  }

  /** A leaf with one object of `m` and nothing to hand down; the object does not roam unless it is the only one. */
  ghost predicate Lone(f: Facts, t: Spots, q: Path, m: set<GameObject>, roamers: set<GameObject>) {
    Leaf(t, q) && Sends(f, t, q) == {} && |At(t, q).objects| == 1 && At(t, q).objects[0] in m
    && (At(t, q).objects[0] in roamers ==> roamers == {At(t, q).objects[0]})
  }

  /** What is ahead: only `m` roam; unbuilt nodes are mild, and while one roams they hold another of `m` each. */
  ghost predicate Few(f: Facts, t: Spots, d: set<GameObject>, p: Path, c: nat, m: set<GameObject>) {
    var roamers := Roamers(f, t, d, p, c);
    && roamers <= m
    && forall q :: q in t && !Done(p, c, q) && !t[q].built ==>
         Mild(f, t, q) && (roamers != {} ==> Lone(f, t, q, m, roamers))
  }

  lemma FewLater(f: Facts, t: Spots, d: set<GameObject>, e: set<GameObject>, p: Path, c: nat, r: Path, k: nat,
                 m: set<GameObject>)
    requires Few(f, t, d, p, c, m) && e <= d && forall q :: Done(p, c, q) ==> Done(r, k, q)
    ensures Few(f, t, e, r, k, m)
  {
    hide Done, Stray, Mild, Sends, RegionAt;
    assert Roamers(f, t, e, r, k) <= Roamers(f, t, d, p, c);
  }

  /** No more roamers, and no other unbuilt nodes, with at most fewer children. */
  lemma FewSame(f: Facts, t: Spots, u: Spots, d: set<GameObject>, p: Path, c: nat, m: set<GameObject>)
    requires Few(f, t, d, p, c, m) && Roamers(f, u, d, p, c) <= Roamers(f, t, d, p, c)
    requires forall q :: q in u && !Done(p, c, q) && !u[q].built ==>
               q in t && !t[q].built && u[q].objects == t[q].objects && (Leaf(t, q) ==> Leaf(u, q))
    ensures Few(f, u, d, p, c, m)
  {
    hide Done, Roamers, RegionAt, Aims, Divides;
    forall q | q in u && !Done(p, c, q) && !u[q].built
      ensures Mild(f, u, q)
      ensures Roamers(f, u, d, p, c) != {} ==> Lone(f, u, q, m, Roamers(f, u, d, p, c))
    {
      assert Mild(f, t, q);
    }
  }

  lemma FewShrinks(f: Facts, t: Spots, u: Spots, d: set<GameObject>, p: Path, c: nat, m: set<GameObject>)
    requires Few(f, t, d, p, c, m)
    requires forall q :: q in u ==> q in t && forall o :: o in u[q].objects ==> o in t[q].objects
    requires forall q :: q in u && !u[q].built ==> !t[q].built && u[q].objects == t[q].objects
    ensures Few(f, u, d, p, c, m)
  {
    hide Done, Stray, Few;
    assert Roamers(f, u, d, p, c) <= Roamers(f, t, d, p, c);
    assert forall q :: q in u && Leaf(t, q) ==> Leaf(u, q);
    FewSame(f, t, u, d, p, c, m);
  }

  // ---------- up to the loop over the children ----------

  /** When a leaf is divided, nothing roams, and what becomes of it is mild. */
  lemma FewDivided(f: Facts, t: Spots, d: set<GameObject>, p: Path, m: set<GameObject>)
    requires Few(f, t, d, p, 0, m) && p in t && !t[p].built && Sends(f, t, p) != {}
    ensures Few(f, FirstBuilt(f, t, p), d, p, 0, m)
  {
    hide Divided, Sends, Aims, RegionAt, Box.Contains, Stay, Done;
    AheadBelow(p, p);
    assert Roamers(f, t, d, p, 0) == {};
    DividedLaw(f, t, p);
    StayMembers(f, t, p);
    var u, full := FirstBuilt(f, t, p), Sends(f, t, p);
    assert Roamers(f, u, d, p, 0) == {} by {
      forall q, o | q in u && !Done(p, 0, q) && o in u[q].objects && o in d
        ensures !Stray(f, q, o)
      {
        if Replaced(p, full, q) {
          assert Fresh(f, Divided(f, t, p), q, t[p].objects);
        } else {
          assert q in t && o in t[q].objects;
          assert o !in Roamers(f, t, d, p, 0);
        }
      }
    }
    forall q | q in u && !Done(p, 0, q) && !u[q].built
      ensures Mild(f, u, q)
    {
      if Replaced(p, full, q) {
        assert Fresh(f, Divided(f, t, p), q, t[p].objects);
        SendsSame(f, Divided(f, t, p), u, q);
      } else {
        assert q in t && u[q] == t[q] && Mild(f, t, q);
        SendsSame(f, t, u, q);
        if Leaf(t, q) { FirstLeaf(f, t, p, q); }
      }
    }
  }

  lemma SendsSame(f: Facts, t: Spots, u: Spots, q: Path)
    requires At(t, q).objects == At(u, q).objects
    ensures Sends(f, t, q) == Sends(f, u, q)
  {}

  lemma RefreshedFew(f: Facts, t: Spots, d: set<GameObject>, p: Path, m: set<GameObject>)
    requires Sound(f.root, t) && p in t && t[p].queue == [] && Few(f, t, d, p, 0, m)
    ensures Few(f, Refreshed(f, t, p), d, p, 0, m)
  {
    hide Sound, Divided, Sends, Few;
    ReadyMeans(f.root, t, p);
    var s := t[p];
    assert t[p := s.(objects := s.objects + s.queue, queue := [])] == t by { assert s.objects + [] == s.objects; }
    assert t[p := s.(queue := [])] == t;
    if !s.ready && !s.built && Sends(f, t, p) != {} {
      FewDivided(f, t, d, p, m);
    } else {
      if !s.ready && !s.built { NothingSent(f, t, p); }
      FewShrinks(f, t, Refreshed(f, t, p), d, p, 0, m);
    }
  }

  lemma BelowFew(f: Facts, t: Tree, p: Path, d: set<GameObject>, m: set<GameObject>)
    requires Sound(f.root, t.spots) && p in t.spots && t.spots[p].queue == [] && Few(f, t.spots, d, p, 0, m)
    ensures Few(f, Below(f, t, p).spots, d, p, 0, m)
  {
    hide Refreshed, Aged, Swept, Pruned, Sound, Few, NoDup;
    var u := Refreshed(f, t.spots, p);
    RefreshedKeeps(f, t.spots, p);
    RefreshedFew(f, t.spots, d, p, m);
    var v := Aged(u, p);
    AgedKeeps(f.root, u, p);
    var w := Swept(f, v, p);
    SweptKeeps(f, v, p);
    PrunedShrinks(w, p, 0);
    PrunedBuilt(w, p, 0);
    FewShrinks(f, u, Pruned(w, p, 0), d, p, 0, m);
  }

  /** With mild nodes only, every object below `p` is spared. */
  lemma MildKeeps(f: Facts, t: Spots, d: set<GameObject>, p: Path, m: set<GameObject>, o: GameObject)
    requires Branched(f.root, t) && Few(f, t, d, p, 0, m) && o in Under(t, p)
    ensures Kept(f, t, p, o, false)
  {
    hide Done, Sends, Lone, RegionAt, Tiny;
    var q :| q in t && p <= q && o in t[q].objects;
    forall i | |p| <= i < |q|
      ensures q[..i] in t && q[i] !in Perils(f, t, q[..i], false)
    {
      PrefixIn(f.root, t, q, i);
      AheadBelow(p, q[..i]);
      assert !t[q[..i]].built ==> Mild(f, t, q[..i]);
    }
    assert Spared(f, t, p, q, false);
  }

  lemma BelowLosesNone(f: Facts, t: Tree, p: Path, d: set<GameObject>, m: set<GameObject>)
    requires Sound(f.root, t.spots) && p in t.spots && t.spots[p].queue == [] && Few(f, t.spots, d, p, 0, m)
    ensures All(t.spots) - f.marked <= All(Below(f, t, p).spots)
  {
    hide Sound, Prepared, Pruned, Few, Kept, Moved;
    SoundBranches(f.root, t.spots);
    BelowOutside(f, t, p);
    var u := Below(f, t, p).spots;
    forall o | o in All(t.spots) - f.marked
      ensures o in All(u)
    {
      if o in Under(t.spots, p) {
        MildKeeps(f, t.spots, d, p, m, o);
        BelowKept(f, t, p, p, o, false);
        KeptIsListed(f, u, p, o);
      } else {
        var q :| q in t.spots && o in t.spots[q].objects;
        assert q in u && o in u[q].objects;
      }
    }
  }

  lemma KeptIsListed(f: Facts, t: Spots, b: Path, o: GameObject)
    requires Kept(f, t, b, o, false)
    ensures o in All(t)
  {
    hide Spared;
  }

  // ---------- relocation ----------

  /** With `o` roaming at `p`, another roamer and a lone object there are three. */
  lemma ThreeOf(m: set<GameObject>, a: GameObject, b: GameObject, c: GameObject)
    requires a in m && b in m && c in m && a != b && a != c && b != c
    ensures |m| >= 3
  {
    assert m == (m - {a, b, c}) + {a, b, c};
    assert |m - {a, b, c}| + |{a, b, c}| == |m|;
  }

  /** So while another one roams besides `o`, no node ahead is unbuilt. */
  lemma NoLone(f: Facts, t: Spots, d: set<GameObject>, p: Path, c: nat, m: set<GameObject>, o: GameObject,
               z: GameObject, g: Path)
    requires Few(f, t, d, p, c, m) && |m| <= 2 && z != o
    requires o in Roamers(f, t, d, p, c) && z in Roamers(f, t, d, p, c)
    requires g in t && !Done(p, c, g)
    ensures t[g].built
  {
    hide Done, Roamers, Mild, RegionAt;
    if !t[g].built { ThreeOf(m, o, z, t[g].objects[0]); }
  }

  /** Relocation adds no roamer, and an object that is in a region around it then does not roam. */
  lemma RelocatedRoamers(f: Facts, t: Spots, p: Path, o: GameObject, d: set<GameObject>, dest: Option<Path>)
    requires Unique(t) && p in t && o in t[p].objects && o in d
    requires var v := t[p := t[p].(objects := Without(t[p].objects, o))];
             Relocated(f, t, p, o) == (match dest case None => v case Some(q) => Put(v, q, o))
    requires dest.Some? && Keeps(f, p, o) ==> Keeps(f, dest.value, o)
    ensures Roamers(f, Relocated(f, t, p, o), d, p, 8) <= Roamers(f, t, d, p, 8)
    ensures dest.Some? && Keeps(f, dest.value, o) ==> o !in Roamers(f, Relocated(f, t, p, o), d, p, 8)
  {
    hide Done, NoDup, Keeps, Relocated;
    assert NoDup(t[p].objects);
    WithoutMembers(t[p].objects, o);
    NotDone(p, p);
    var u := Relocated(f, t, p, o);
    forall q, x | q in u && !Done(p, 8, q) && x in u[q].objects && x in d && Stray(f, q, x)
      ensures x in Roamers(f, t, d, p, 8)
    {
      if x == o {
        assert Stray(f, p, o);
      } else {
        assert q in t && x in t[q].objects;
      }
    }
  }

  /** The object joins a node that was built, or goes where the update has been. */
  lemma FewPlain(f: Facts, t: Spots, u: Spots, p: Path, q: Path, d: set<GameObject>, m: set<GameObject>)
    requires Few(f, t, d, p, 8, m) && Roamers(f, u, d, p, 8) <= Roamers(f, t, d, p, 8)
    requires p in t && t[p].built && p in u && u[p].built
    requires forall r :: r != p && r != q ==> (r in t <==> r in u) && (r in t ==> u[r] == t[r])
    requires if q in t then q in u && u[q].built == t[q].built && (t[q].built || Done(p, 8, q))
             else p <= q && q != p
    ensures Few(f, u, d, p, 8, m)
  {
    hide Few, Roamers, Done;
    if q !in t { DoneBelow(p, q); }
    forall r | r in u && !Done(p, 8, r) && !u[r].built
      ensures r in t && !t[r].built && u[r].objects == t[r].objects && (Leaf(t, r) ==> Leaf(u, r))
    {
      if q !in t && Up(q) == r {
        assert q[..|p|] == r[..|p|] == p;
        if r != p { DoneBelow(p, r); }
      }
      assert forall k: Corner :: Up(r + [k]) == r;
    }
    FewSame(f, t, u, d, p, 8, m);
  }

  /** A roamer joins a lone object. */
  lemma FewJoined(f: Facts, t: Spots, u: Spots, p: Path, q: Path, o: GameObject, d: set<GameObject>,
                  m: set<GameObject>)
    requires Unique(t) && Few(f, t, d, p, 8, m) && |m| <= 2
    requires Roamers(f, u, d, p, 8) <= Roamers(f, t, d, p, 8) - {o} && o in Roamers(f, t, d, p, 8)
    requires p in t && t[p].built && o in t[p].objects && p in u && u[p].built && t.Keys == u.Keys
    requires forall r :: r in t && r != p && r != q ==> u[r] == t[r]
    requires q in t && !t[q].built && !Done(p, 8, q)
    ensures Few(f, u, d, p, 8, m)
  {
    hide Roamers, Done, RegionAt, Sends, NoDup;
    if z :| z in Roamers(f, u, d, p, 8) {
      NoLone(f, t, d, p, 8, m, o, z, q);
    }
    forall r | r in u && !Done(p, 8, r) && !u[r].built
      ensures Mild(f, u, r)
    {
      assert Leaf(t, r) ==> Leaf(u, r);
      if r != q { SendsSame(f, t, u, r); }
    }
  }

  /** A roamer gets a node of its own. */
  lemma FewNew(f: Facts, t: Spots, u: Spots, p: Path, q: Path, o: GameObject, d: set<GameObject>, m: set<GameObject>)
    requires Branched(f.root, t) && Unique(t) && Few(f, t, d, p, 8, m) && |m| <= 2
    requires Roamers(f, u, d, p, 8) <= Roamers(f, t, d, p, 8) - {o} && o in Roamers(f, t, d, p, 8)
    requires p in t && t[p].built && o in t[p].objects && p in u && u[p].built
    requires forall r :: r != p && r != q ==> (r in t <==> r in u) && (r in t ==> u[r] == t[r])
    requires q !in t && q in u && u[q] == NewSpot([o]) && RegionAt(f.root, q).Contains(f.BoxOf(o))
    ensures Few(f, u, d, p, 8, m)
  {
    hide Roamers, Done, RegionAt, Sends, NoDup, Box.Contains, Tiny;
    assert Leaf(u, q) by {
      forall k: Corner
        ensures q + [k] !in u
      {
        assert |q + [k]| > |q|;
        assert q + [k] in t ==> q in t;
      }
    }
    SoleSends(f, u, q);
    if z :| z in Roamers(f, u, d, p, 8) {
      forall r | r in u && !Done(p, 8, r) && !u[r].built
        ensures r == q
      {
        if r != q { NoLone(f, t, d, p, 8, m, o, z, r); }
      }
    }
    forall r | r in u && !Done(p, 8, r) && !u[r].built
      ensures Mild(f, u, r)
    {
      if r != q {
        SendsSame(f, t, u, r);
      }
    }
  }

  lemma SoleSends(f: Facts, t: Spots, q: Path)
    requires |At(t, q).objects| == 1 && RegionAt(f.root, q).Contains(f.BoxOf(At(t, q).objects[0]))
    ensures Sends(f, t, q) == {}
  {}

  /** The object is put at `q`. */
  lemma FewPut(f: Facts, t: Spots, p: Path, q: Path, o: GameObject, d: set<GameObject>, m: set<GameObject>)
    requires Branched(f.root, t) && Unique(t) && p in t && t[p].built && o in t[p].objects
    requires Few(f, t, d, p, 8, m) && |m| <= 2
    requires var u := Put(t[p := t[p].(objects := Without(t[p].objects, o))], q, o);
             && Roamers(f, u, d, p, 8) <= Roamers(f, t, d, p, 8)
             && (RegionAt(f.root, q).Contains(f.BoxOf(o)) ==> o !in Roamers(f, u, d, p, 8))
    requires RegionAt(f.root, q).Contains(f.BoxOf(o)) || (q in t && (q == p || q == []))
    requires p <= q || o in Roamers(f, t, d, p, 8)
    ensures Few(f, Put(t[p := t[p].(objects := Without(t[p].objects, o))], q, o), d, p, 8, m)
  {
    hide Few, Done, RegionAt, Box.Contains, Tiny, NoDup, Roamers, Branched, Unique;
    var u := Put(t[p := t[p].(objects := Without(t[p].objects, o))], q, o);
    if q in t && (t[q].built || Done(p, 8, q)) {
      FewPlain(f, t, u, p, q, d, m);
    } else if p <= q {
      DoneBelow(p, q);
      FewPlain(f, t, u, p, q, d, m);
    } else if q in t {
      if q == [] { RootIsBuilt(f, t, d, p, m); }
      FewJoined(f, t, u, p, q, o, d, m);
    } else {
      assert [] + [o] == [o];
      FewNew(f, t, u, p, q, o, d, m);
    }
  }

  lemma RelocatedFew(f: Facts, t: Spots, p: Path, o: GameObject, d: set<GameObject>, m: set<GameObject>)
    requires Sound(f.root, t) && p in t && t[p].built && o in t[p].objects && f.root.NonNegative()
    requires o in d && o !in f.marked && Few(f, t, d, p, 8, m) && |m| <= 2
    ensures var u := Relocated(f, t, p, o); Few(f, u, d, p, 8, m) && All(t) - Outside(f, d) <= All(u)
  {
    hide Branched, Lives, Queued, Few, Done, Relocated, RegionAt, Box.Contains, Box.NonNegative, Tiny, NoDup, Roamers,
      All;
    var u, dest := Relocated(f, t, p, o), None;
    SoundBranches(f.root, t);
    SoundLists(f.root, t, p);
    RelocatedOthers(f, t, p, o);
    OthersStay(t, u, o);
    assert All(t) == (All(t) - All(u)) + (All(t) * All(u));
    if f.root.Contains(f.BoxOf(o)) {
      dest := Landing(f, t, p, o);
      if !RegionAt(f.root, p).Contains(f.BoxOf(o)) { RoamsHere(f, t, d, p, o, m); }
    } else {
      dest := LandingOutside(f, t, p, o);
      assert o in Outside(f, d);
    }
    RelocatedRoamers(f, t, p, o, d, dest);
    if dest == None {
      FewPlain(f, t, u, p, p, d, m);
    } else {
      var q := dest.value;
      assert o in u[q].objects;
      AllOf(u, q);
      assert o in All(u);
      FewPut(f, t, p, q, o, d, m);
    }
  }

  lemma RoamsHere(f: Facts, t: Spots, d: set<GameObject>, p: Path, o: GameObject, m: set<GameObject>)
    requires p in t && o in t[p].objects && o in d && o !in f.marked && Few(f, t, d, p, 8, m)
    requires !RegionAt(f.root, p).Contains(f.BoxOf(o)) && f.root.Contains(f.BoxOf(o))
    ensures o in Roamers(f, t, d, p, 8) && o in m
  {
    hide Done, RegionAt, Box.Contains, Lone, Mild;
    NotDone(p, p);
  }

  /** While one roams, no node above is unbuilt. */
  lemma RootIsBuilt(f: Facts, t: Spots, d: set<GameObject>, p: Path, m: set<GameObject>)
    requires Branched(f.root, t) && p in t && t[p].built && Few(f, t, d, p, 8, m) && Roamers(f, t, d, p, 8) != {}
    ensures t[[]].built
  {
    hide Done, Roamers, Mild, RegionAt, Tiny, Box.Contains;
    NotDone(p, []);
    if p != [] {
      PrefixIn(f.root, t, p, 0);
      assert p[..0] == [];
    }
  }

  lemma {:induction false} AllRelocatedFew(f: Facts, t: Spots, p: Path, moved: seq<GameObject>, i: nat,
                                           d: set<GameObject>, m: set<GameObject>)
    requires Sound(f.root, t) && p in t && t[p].built && NoDup(moved) && i <= |moved|
    requires i < |moved| ==> t[p].lifespan == -1
    requires forall j :: i <= j < |moved| ==> moved[j] in t[p].objects && moved[j] in d && moved[j] !in f.marked
    requires Few(f, t, d, p, 8, m) && |m| <= 2 && f.root.NonNegative()
    ensures var u := AllRelocated(f, t, p, moved, i); Few(f, u, d, p, 8, m) && All(t) - Outside(f, d) <= All(u)
    decreases |moved| - i
  {
    hide Sound, Relocated, Few, Outside, All, Box.NonNegative;
    if i < |moved| {
      var v := Relocated(f, t, p, moved[i]);
      RelocatedKeeps(f, t, p, moved[i]);
      RelocatedFew(f, t, p, moved[i], d, m);
      AllRelocatedFew(f, v, p, moved, i + 1, d, m);
    }
  }

  // ---------- the whole visit ----------

  lemma OutsideMore(f: Facts, a: set<GameObject>, b: set<GameObject>)
    requires a <= b
    ensures Outside(f, a) <= Outside(f, b)
  {}

  /** `ex` are objects of nodes above that wait for their relocation. */
  lemma {:induction false} VisitedFew(f: Facts, t: Tree, p: Path, ex: set<GameObject>, m: set<GameObject>)
    requires Sound(f.root, t.spots) && p in t.spots && t.spots[p].queue == []
    requires Few(f, t.spots, t.dirty + ex, p, 0, m) && |m| <= 2 && f.root.NonNegative()
    ensures var u := Visited(f, t, p);
            && Few(f, u.spots, u.dirty + ex, p, 8, m) && u.dirty <= t.dirty
            && All(t.spots) - f.marked - Outside(f, t.dirty + ex) <= All(u.spots)
    decreases Level(RegionAt(f.root, p)), 10
  {
    hide Sound, Prepared, Pruned, AllRelocated, KidsVisited, Few, Outside, All, Grows, NoDup, Box.NonNegative;
    var moved := Moved(Tree(Prepared(f, t.spots, p), t.dirty), p);
    var u := Below(f, t, p);
    BelowKeeps(f, t, p);
    BelowFew(f, t, p, t.dirty + ex, m);
    BelowLosesNone(f, t, p, t.dirty + ex, m);
    WithinMembers(At(Prepared(f, t.spots, p), p).objects, t.dirty);
    var e := ex + Elems(moved);
    assert u.dirty + e <= t.dirty + ex;
    FewLater(f, u.spots, t.dirty + ex, u.dirty + e, p, 0, p, 0, m);
    var flags := Kids(u.spots, p);
    KidsVisitedKeeps(f, u, p, flags, 0);
    KidsFew(f, u, p, flags, 0, e, m);
    var v := KidsVisited(f, u, p, flags, 0);
    StillListed(u.spots[p].objects, v.spots[p].objects, moved);
    forall o | o in moved {
      MovedClean(f, t, p, o);
    }
    AllRelocatedFew(f, v.spots, p, moved, 0, v.dirty + e, m);
    OutsideMore(f, u.dirty + e, t.dirty + ex);
    OutsideMore(f, v.dirty + e, t.dirty + ex);
    FewLater(f, AllRelocated(f, v.spots, p, moved, 0), v.dirty + e, v.dirty + ex, p, 8, p, 8, m);
  }

  lemma {:induction false} KidsFew(f: Facts, t: Tree, p: Path, flags: set<Corner>, c: nat, ex: set<GameObject>,
                                   m: set<GameObject>)
    requires Sound(f.root, t.spots) && p in t.spots && c <= 8
    requires forall k :: k in flags && c <= k ==> p + [k] in t.spots
    requires Few(f, t.spots, t.dirty + ex, p, c, m) && |m| <= 2 && f.root.NonNegative()
    ensures var u := KidsVisited(f, t, p, flags, c);
            && Few(f, u.spots, u.dirty + ex, p, 8, m) && u.dirty <= t.dirty
            && All(t.spots) - f.marked - Outside(f, t.dirty + ex) <= All(u.spots)
    decreases Level(RegionAt(f.root, p)), 8 - c
  {
    hide Sound, Visited, Few, Outside, All, Grows, Done, RegionAt, Tiny, Box.NonNegative;
    if c < 8 {
      forall q
        ensures Done(p, c, q) ==> Done(p + [c], 0, q) && Done(p, c + 1, q)
        ensures Done(p + [c], 8, q) ==> Done(p, c + 1, q)
      {
        DoneSteps(p, c, q);
      }
      if c !in flags || Tiny(RegionAt(f.root, p)) {
        FewLater(f, t.spots, t.dirty + ex, t.dirty + ex, p, c, p, c + 1, m);
        KidsFew(f, t, p, flags, c + 1, ex, m);
      } else {
        RegionBelow(f.root, p, c);
        var v := Visited(f, t, p + [c]);
        VisitedKeeps(f, t, p + [c]);
        ReadyMeans(f.root, t.spots, p + [c]);
        FewLater(f, t.spots, t.dirty + ex, t.dirty + ex, p, c, p + [c], 0, m);
        VisitedFew(f, t, p + [c], ex, m);
        KidGrows(t.spots, v.spots, p, flags, c);
        FewLater(f, v.spots, v.dirty + ex, v.dirty + ex, p + [c], 8, p, c + 1, m);
        OutsideMore(f, v.dirty + ex, t.dirty + ex);
        KidsFew(f, v, p, flags, c + 1, ex, m);
      }
    }
  }

  // ---------- the update of a whole tree ----------

  /** The unmarked objects that are dirty and have left their node's region for another one in the tree. */
  ghost function Strays(f: Facts, t: Tree): set<GameObject> {
    set q, o | q in t.spots && o in t.spots[q].objects && o in t.dirty && Stray(f, q, o) :: o
  }

  lemma NoStrays(f: Facts, t: Tree)
    ensures Strays(f, t) == {} <==> Settled(f, t, [])
  {
    hide Keeps;
    forall q, o | q in t.spots && o in t.spots[q].objects
      ensures [] <= q && (o in t.dirty && Stray(f, q, o) ==> o in Strays(f, t))
    {}
  }

  /**
    From a fully built tree with an empty queue, an update with at most two strays keeps every unmarked object that has
    not left the root's region; any number may have moved within the regions of their nodes.
   */
  lemma TwoMoveUpdate(f: Facts, t: Tree)
    requires Sound(f.root, t.spots) && t.spots[[]].queue == [] && forall q :: q in t.spots ==> t.spots[q].built
    requires |Strays(f, t)| <= 2 && f.root.NonNegative()
    ensures All(t.spots) - f.marked - Outside(f, t.dirty) <= All(Visited(f, t, []).spots)
  {
    hide Unique, Lives, Queued, Visited, Stray, Outside, All, Box.NonNegative;
    assert t.dirty + {} == t.dirty;
    assert Roamers(f, t.spots, t.dirty, [], 0) == Strays(f, t);
    VisitedFew(f, t, [], {}, Strays(f, t));
  }
}
