/** What `BuildTree` does: which subtrees it replaces, and where the objects of the node go. */
module Division {
  import opened Geometry
  import opened Layout
  import opened Objects
  import opened Sequences
  import opened Soundness

  /** The corners at which some of the objects aim. */
  ghost function Aims(f: Facts, region: Box, own: seq<GameObject>): set<nat> {
    set o | o in own && Target(f, region, o) < 8 :: Target(f, region, o)
  }

  lemma HandedMembers(f: Facts, region: Box, own: seq<GameObject>, c: nat)
    ensures forall o :: o in Handed(f, region, own, c) ==> o in own && Target(f, region, o) == c
    ensures forall o :: o in own && Target(f, region, o) == c ==> o in Handed(f, region, own, c)
    ensures NoDup(own) ==> NoDup(Handed(f, region, own, c))
  {
    WithinMembers(own, Aimed(f, region, own, c));
  }

  lemma AimsAt(f: Facts, region: Box, own: seq<GameObject>, c: nat)
    requires c < 8
    ensures c in Aims(f, region, own) <==> Handed(f, region, own, c) != []
  {
    hide Target;
    HandedMembers(f, region, own, c);
    var list := Handed(f, region, own, c);
    if list != [] {
      assert list[0] in list && list[0] in own;
      assert Target(f, region, list[0]) in Aims(f, region, own);
    }
    if c in Aims(f, region, own) {
      var o :| o in own && Target(f, region, o) == c;
      assert o in list;
    }
  }

  /** The corners that receive objects when the node at `p` is divided. */
  ghost function Sends(f: Facts, t: Spots, p: Path): set<nat> {
    var region, own := RegionAt(f.root, p), At(t, p).objects;
    if Divides(f, region, own) then Aims(f, region, own) else {}
  }

  /** A path that leads below one of these corners of `p`. */
  ghost predicate Replaced(p: Path, full: set<nat>, q: Path) {
    p <= q && q != p && q[|p|] in full
  }

  /** Not at `r` or below, the trees agree. */
  ghost predicate SameOutside(t: Spots, u: Spots, r: Path) {
    forall q :: !(r <= q) ==> (q in t <==> q in u) && (q in t ==> u[q] == t[q])
  }

  ghost predicate SameBut(t: Spots, u: Spots, p: Path, full: set<nat>) {
    forall q :: !Replaced(p, full, q) ==> (q in t <==> q in u) && (q in t ==> u[q] == t[q])
  }

  /** A new node with some of the objects, which lie in its region and have nowhere further down to go. */
  ghost predicate Fresh(f: Facts, t: Spots, q: Path, from: seq<GameObject>) {
    && q in t && t[q] == NewSpot(t[q].objects)
    && (forall o :: o in t[q].objects ==> o in from && RegionAt(f.root, q).Contains(f.BoxOf(o)))
    && Sends(f, t, q) == {}
    && (Aims(f, RegionAt(f.root, q), t[q].objects) == {} || Leaf(t, q))
  }

  ghost predicate AllFresh(f: Facts, t: Spots, p: Path, full: set<nat>, from: seq<GameObject>) {
    forall q :: q in t && Replaced(p, full, q) ==> Fresh(f, t, q, from)
  }

  /** The objects that stay when a node is divided have no octant to go to. */
  lemma StayingAims(f: Facts, region: Box, own: seq<GameObject>)
    ensures Aims(f, region, Handed(f, region, own, 8)) == {}
  {
    hide Target;
    HandedMembers(f, region, own, 8);
  }

  /** The objects that remain at the node at `p`. */
  ghost function Stay(f: Facts, t: Spots, p: Path): seq<GameObject> {
    var region, own := RegionAt(f.root, p), At(t, p).objects;
    if Divides(f, region, own) then Handed(f, region, own, 8) else own
  }

  lemma StayMembers(f: Facts, t: Spots, p: Path)
    ensures forall o :: o in Stay(f, t, p) ==> o in At(t, p).objects
    ensures NoDup(At(t, p).objects) ==> NoDup(Stay(f, t, p))
  {
    HandedMembers(f, RegionAt(f.root, p), At(t, p).objects, 8);
  }

  /** After a division there is nothing left to hand down. */
  lemma Settles(f: Facts, t: Spots, p: Path, u: Spots)
    requires p in t && p in u && u[p].objects == Stay(f, t, p)
    ensures Sends(f, u, p) == {}
    ensures Sends(f, t, p) != {} ==> Aims(f, RegionAt(f.root, p), u[p].objects) == {}
    ensures Divides(f, RegionAt(f.root, p), t[p].objects) ==> Aims(f, RegionAt(f.root, p), u[p].objects) == {}
  {
    StayingAims(f, RegionAt(f.root, p), t[p].objects);
  }

  lemma {:induction false} DividedLaw(f: Facts, t: Spots, p: Path)
    requires p in t
    ensures var u, full := Divided(f, t, p), Sends(f, t, p);
            && p in u && u[p] == t[p].(objects := Stay(f, t, p))
            && SameBut(t[p := u[p]], u, p, full) && AllFresh(f, u, p, full, t[p].objects)
    decreases Level(RegionAt(f.root, p)), 9
  {
    hide Handed, Octant, Tiny, Level, Fresh;
    var region, own := RegionAt(f.root, p), t[p].objects;
    if Divides(f, region, own) {
      NotTiny(f, region, own);
      var v := t[p := t[p].(objects := Handed(f, region, own, 8))];
      CornersLaw(f, v, p, own, 0);
      var full := set d | d in Aims(f, region, own) && d >= 0;
      assert full == Sends(f, t, p);
    }
  }

  lemma NotTiny(f: Facts, region: Box, own: seq<GameObject>)
    requires Divides(f, region, own)
    ensures !Tiny(region)
  {}

  lemma {:induction false} CornersLaw(f: Facts, t: Spots, p: Path, own: seq<GameObject>, c: nat)
    requires p in t && c <= 8 && !Tiny(RegionAt(f.root, p))
    ensures var u := CornersDone(f, t, p, own, c);
            var full := set d | d in Aims(f, RegionAt(f.root, p), own) && d >= c;
            SameBut(t, u, p, full) && AllFresh(f, u, p, full, own)
    decreases Level(RegionAt(f.root, p)), 8 - c
  {
    hide Handed, Octant, Tiny, Level, Fresh, Aims, Divided, Target;
    var region, r := RegionAt(f.root, p), p + [c];
    if c == 8 {
      AimsBelow(f, region, own);
    } else {
      RegionBelow(f.root, p, c);
      AimsAt(f, region, own, c);
      var list := Handed(f, region, own, c);
      if list == [] {
        CornersLaw(f, t, p, own, c + 1);
        assert (set d | d in Aims(f, region, own) && d >= c) == set d | d in Aims(f, region, own) && d >= c + 1;
      } else {
        HandedFits(f, region, own, c);
        SpawnLaw(f, t, r, list);
        var next := Divided(f, Cut(t, r)[r := NewSpot(list)], r);
        assert p in next by { assert !(r <= p); }
        CornersLaw(f, next, p, own, c + 1);
        CornersJoin(f, t, next, CornersDone(f, next, p, own, c + 1), p, own, list, c);
      }
    }
  }

  lemma AimsBelow(f: Facts, region: Box, own: seq<GameObject>)
    ensures forall c :: c in Aims(f, region, own) ==> c < 8
  {}

  lemma HandedFits(f: Facts, region: Box, own: seq<GameObject>, c: Corner)
    ensures forall o :: o in Handed(f, region, own, c) ==> o in own && Octant(region, c).Contains(f.BoxOf(o))
  {
    HandedMembers(f, region, own, c);
  }

  lemma FreshStays(f: Facts, t: Spots, u: Spots, q: Path, list: seq<GameObject>, own: seq<GameObject>)
    requires Fresh(f, t, q, list) && q in u && u[q] == t[q]
    requires forall k: Corner :: q + [k] in u ==> q + [k] in t
    requires forall o :: o in list ==> o in own
    ensures Fresh(f, u, q, own)
  {}

  /** One corner done, then the others. */
  lemma CornersJoin(f: Facts, t: Spots, next: Spots, u: Spots, p: Path, own: seq<GameObject>,
                    list: seq<GameObject>, c: Corner)
    requires SameOutside(t, next, p + [c]) && forall q :: q in next && p + [c] <= q ==> Fresh(f, next, q, list)
    requires c in Aims(f, RegionAt(f.root, p), own) && forall o :: o in list ==> o in own
    requires var full := set d | d in Aims(f, RegionAt(f.root, p), own) && d >= c + 1;
             SameBut(next, u, p, full) && AllFresh(f, u, p, full, own)
    ensures var full := set d | d in Aims(f, RegionAt(f.root, p), own) && d >= c;
            SameBut(t, u, p, full) && AllFresh(f, u, p, full, own)
  {
    hide Aims, Fresh, RegionAt;
    var less := set d | d in Aims(f, RegionAt(f.root, p), own) && d >= c + 1;
    var full := set d | d in Aims(f, RegionAt(f.root, p), own) && d >= c;
    forall q | !Replaced(p, full, q)
      ensures (q in t <==> q in u) && (q in t ==> u[q] == t[q])
    {
      UnderCorner(p, c, q);
      assert !Replaced(p, less, q);
    }
    forall q | q in u && Replaced(p, full, q)
      ensures Fresh(f, u, q, own)
    {
      UnderCorner(p, c, q);
      if q[|p|] == c {
        assert !Replaced(p, less, q);
        forall k: Corner | q + [k] in u
          ensures q + [k] in next
        {
          assert (q + [k])[|p|] == q[|p|];
          assert !Replaced(p, less, q + [k]);
        }
        FreshStays(f, next, u, q, list, own);
      } else {
        assert Replaced(p, less, q);
      }
    }
  }

  /** A new child in place of the old one, divided. */
  lemma {:induction false} SpawnLaw(f: Facts, t: Spots, r: Path, list: seq<GameObject>)
    requires forall o :: o in list ==> RegionAt(f.root, r).Contains(f.BoxOf(o))
    ensures var u := Divided(f, Cut(t, r)[r := NewSpot(list)], r);
            && SameOutside(t, u, r) && r in u
            && forall q :: q in u && r <= q ==> Fresh(f, u, q, list)
    decreases Level(RegionAt(f.root, r)), 10
  {
    hide Handed, Octant, Tiny, Level, Fresh, Aims, Sends, Divided, Stay;
    var v := Cut(t, r)[r := NewSpot(list)];
    DividedLaw(f, v, r);
    var u := Divided(f, v, r);
    forall q | !(r <= q)
      ensures (q in t <==> q in u) && (q in t ==> u[q] == t[q])
    {
      assert !Replaced(r, Sends(f, v, r), q);
    }
    forall q | q in u && r <= q
      ensures Fresh(f, u, q, list)
    {
      if q == r {
        SpawnedRoot(f, v, u, r, list);
      } else {
        assert q !in v;
        assert Replaced(r, Sends(f, v, r), q);
      }
    }
  }

  lemma SpawnedRoot(f: Facts, v: Spots, u: Spots, r: Path, list: seq<GameObject>)
    requires r in v && v[r] == NewSpot(list) && forall q :: q in v && r <= q ==> q == r
    requires r in u && u[r] == v[r].(objects := Stay(f, v, r))
    requires SameBut(v[r := u[r]], u, r, Sends(f, v, r))
    requires forall o :: o in list ==> RegionAt(f.root, r).Contains(f.BoxOf(o))
    ensures Fresh(f, u, r, list)
  {
    hide Handed, Octant, Tiny, Level, Aims, RegionAt;
    StayMembers(f, v, r);
    Settles(f, v, r, u);
    if !Divides(f, RegionAt(f.root, r), list) {
      forall k: Corner
        ensures r + [k] !in u
      {
        assert r <= r + [k] && r + [k] !in v;
      }
    }
  }

  /** A division that sends nothing changes nothing. */
  lemma NothingSent(f: Facts, t: Spots, p: Path)
    requires p in t && Sends(f, t, p) == {}
    ensures Divided(f, t, p) == t
  {
    hide RegionAt, Tiny, Target, Divided, AllFresh;
    DividedLaw(f, t, p);
    var region, own := RegionAt(f.root, p), t[p].objects;
    forall o | o in own && Divides(f, region, own)
      ensures Target(f, region, o) == 8
    {
      assert Target(f, region, o) !in Aims(f, region, own);
    }
    if Divides(f, region, own) { WithinMembers(own, Aimed(f, region, own, 8)); }
    var u := Divided(f, t, p);
    assert forall q :: !Replaced(p, {}, q);
    assert u[p] == t[p];
    assert t[p := u[p]] == t;
    assert u == t;
  }

  // ---------- a division keeps the invariants ----------

  lemma {:induction false} DividedBranched(f: Facts, t: Spots, p: Path)
    requires p in t && Branched(f.root, t)
    ensures Branched(f.root, Divided(f, t, p))
    decreases Level(RegionAt(f.root, p)), 9
  {
    hide Handed, Octant, Tiny, Level, RegionAt;
    var region, own := RegionAt(f.root, p), t[p].objects;
    if Divides(f, region, own) {
      NotTiny(f, region, own);
      CornersBranched(f, t[p := t[p].(objects := Handed(f, region, own, 8))], p, own, 0);
    }
  }

  lemma {:induction false} CornersBranched(f: Facts, t: Spots, p: Path, own: seq<GameObject>, c: nat)
    requires p in t && Branched(f.root, t) && c <= 8 && !Tiny(RegionAt(f.root, p))
    ensures Branched(f.root, CornersDone(f, t, p, own, c))
    decreases Level(RegionAt(f.root, p)), 8 - c
  {
    hide Handed, Octant, Tiny, Level, RegionAt, Divided, Branched;
    if c < 8 {
      var r, list := p + [c], Handed(f, RegionAt(f.root, p), own, c);
      var next := t;
      if list != [] {
        RegionBelow(f.root, p, c);
        CutBranched(f.root, t, p, c, NewSpot(list));
        DividedBranched(f, Cut(t, r)[r := NewSpot(list)], r);
        HandedFits(f, RegionAt(f.root, p), own, c);
        SpawnLaw(f, t, r, list);
        next := Divided(f, Cut(t, r)[r := NewSpot(list)], r);
        assert p in next by { assert !(r <= p); }
      }
      CornersBranched(f, next, p, own, c + 1);
    }
  }

  lemma CutBranched(root: Box, t: Spots, p: Path, c: Corner, s: Spot)
    requires p in t && Branched(root, t) && !Tiny(RegionAt(root, p))
    ensures Branched(root, Cut(t, p + [c])[p + [c] := s])
  {
    hide RegionAt, Tiny;
    var r := p + [c];
    var u := Cut(t, r)[r := s];
    assert !(r <= []) && !(r <= p);
    forall q: Path, k: Corner | q + [k] in u
      ensures q in u && !Tiny(RegionAt(root, q))
    {
      PrefixMore(r, q, k);
      if q + [k] == r {
        assert Up(q + [k]) == q && Up(r) == p;
      } else {
        assert q + [k] in t;
      }
    }
  }

  lemma PrefixMore(r: Path, q: Path, k: Corner)
    ensures r <= q ==> r <= q + [k]
  {
    assert (q + [k])[..|q|] == q;
  }

  /** No list holds an object that is still to be handed to one of the corners from `c` on. */
  ghost predicate Pending(f: Facts, t: Spots, region: Box, own: seq<GameObject>, c: nat) {
    forall q, o :: q in t && o in t[q].objects && o in own ==> Target(f, region, o) < c || Target(f, region, o) == 8
  }

  lemma {:induction false} DividedUnique(f: Facts, t: Spots, p: Path)
    requires p in t && Unique(t)
    ensures Unique(Divided(f, t, p))
    decreases Level(RegionAt(f.root, p)), 9
  {
    hide Octant, Tiny, Level, RegionAt, Target, Handed;
    var region, own := RegionAt(f.root, p), t[p].objects;
    if Divides(f, region, own) {
      NotTiny(f, region, own);
      HandedMembers(f, region, own, 8);
      CornersUnique(f, t[p := t[p].(objects := Handed(f, region, own, 8))], p, own, 0);
    }
  }

  lemma {:induction false} CornersUnique(f: Facts, t: Spots, p: Path, own: seq<GameObject>, c: nat)
    requires p in t && Unique(t) && NoDup(own) && c <= 8 && !Tiny(RegionAt(f.root, p))
    requires Pending(f, t, RegionAt(f.root, p), own, c)
    ensures Unique(CornersDone(f, t, p, own, c))
    decreases Level(RegionAt(f.root, p)), 8 - c
  {
    hide Handed, Octant, Tiny, Level, RegionAt, Divided, Unique, Pending, Target;
    if c < 8 {
      var r, list := p + [c], Handed(f, RegionAt(f.root, p), own, c);
      var next := t;
      RegionBelow(f.root, p, c);
      if list != [] {
        var v := Cut(t, r)[r := NewSpot(list)];
        SpawnedUnique(f, t, p, own, c);
        DividedUnique(f, v, r);
        HandedFits(f, RegionAt(f.root, p), own, c);
        SpawnLaw(f, t, r, list);
        next := Divided(f, v, r);
        assert p in next by { assert !(r <= p); }
      }
      PendingStep(f, t, next, p, own, c);
      CornersUnique(f, next, p, own, c + 1);
    }
  }

  lemma SpawnedUnique(f: Facts, t: Spots, p: Path, own: seq<GameObject>, c: Corner)
    requires Unique(t) && NoDup(own) && Pending(f, t, RegionAt(f.root, p), own, c)
    ensures Unique(Cut(t, p + [c])[p + [c] := NewSpot(Handed(f, RegionAt(f.root, p), own, c))])
  {
    hide Target, RegionAt, Handed;
    HandedMembers(f, RegionAt(f.root, p), own, c);
  }

  lemma PendingStep(f: Facts, t: Spots, next: Spots, p: Path, own: seq<GameObject>, c: Corner)
    requires Pending(f, t, RegionAt(f.root, p), own, c)
    requires var list := Handed(f, RegionAt(f.root, p), own, c);
             if list == [] then next == t
             else SameOutside(t, next, p + [c]) && forall q :: q in next && p + [c] <= q ==> Fresh(f, next, q, list)
    ensures Pending(f, next, RegionAt(f.root, p), own, c + 1)
  {
    hide Target, RegionAt, Handed, Aims;
    HandedMembers(f, RegionAt(f.root, p), own, c);
  }

  /** Where an object of a divided node is afterwards. */
  lemma {:induction false} DividedPlaces(f: Facts, t: Spots, p: Path, o: GameObject) returns (q: Path)
    requires p in t && o in t[p].objects
    ensures q in Divided(f, t, p) && o in Divided(f, t, p)[q].objects
    ensures p <= q && (q != p ==> q[|p|] in Sends(f, t, p))
    decreases Level(RegionAt(f.root, p)), 9
  {
    hide Octant, Tiny, Level, RegionAt, Target, Handed;
    var region, own := RegionAt(f.root, p), t[p].objects;
    q := p;
    DividedLaw(f, t, p);
    if Divides(f, region, own) {
      HandedMembers(f, region, own, 8);
      var k := Target(f, region, o);
      if k < 8 {
        NotTiny(f, region, own);
        q := CornersPlaces(f, t[p := t[p].(objects := Handed(f, region, own, 8))], p, own, 0, o);
        UnderCorner(p, k, q);
        AimsAt(f, region, own, k);
        HandedMembers(f, region, own, k);
      }
    }
  }

  lemma {:induction false} CornersPlaces(f: Facts, t: Spots, p: Path, own: seq<GameObject>, c: nat, o: GameObject)
    returns (q: Path)
    requires p in t && o in own && c <= Target(f, RegionAt(f.root, p), o) < 8 && !Tiny(RegionAt(f.root, p))
    ensures var u := CornersDone(f, t, p, own, c); q in u && o in u[q].objects
    ensures p + [Target(f, RegionAt(f.root, p), o)] <= q
    decreases Level(RegionAt(f.root, p)), 8 - c
  {
    hide Octant, Tiny, Level, RegionAt, Target, Handed, Divided, Aims;
    var r, list := p + [c], Handed(f, RegionAt(f.root, p), own, c);
    var next := t;
    RegionBelow(f.root, p, c);
    HandedMembers(f, RegionAt(f.root, p), own, c);
    if list != [] {
      HandedFits(f, RegionAt(f.root, p), own, c);
      SpawnLaw(f, t, r, list);
      next := Divided(f, Cut(t, r)[r := NewSpot(list)], r);
      assert p in next by { assert !(r <= p); }
    }
    if Target(f, RegionAt(f.root, p), o) == c {
      assert o in list;
      q := DividedPlaces(f, Cut(t, r)[r := NewSpot(list)], r, o);
      CornersLaw(f, next, p, own, c + 1);
      UnderCorner(p, c, q);
    } else {
      q := CornersPlaces(f, next, p, own, c + 1, o);
    }
  }

  lemma ReplacedUp(p: Path, full: set<nat>, q: Path, k: Corner)
    requires !Replaced(p, full, q) && q != p
    ensures !Replaced(p, full, q + [k])
  {
    if p <= q + [k] {
      assert |p| <= |q| ==> (q + [k])[..|p|] == q[..|p|];
      assert |p| == |q| + 1 ==> p == q + [k];
      assert |p| < |q| ==> (q + [k])[|p|] == q[|p|];
    }
  }

  lemma DividedLives(f: Facts, t: Spots, u: Spots, p: Path, full: set<nat>)
    requires Lives(t) && p in t && !t[p].built
    requires p in u && u[p] == t[p].(objects := u[p].objects)
    requires SameBut(t[p := u[p]], u, p, full) && AllFresh(f, u, p, full, t[p].objects)
    ensures Lives(u)
  {
    hide Aims, Sends, RegionAt;
    forall q | q in u && u[q].lifespan != -1 && u[q].objects == []
      ensures Leaf(u, q)
    {
      if !Replaced(p, full, q) {
        assert q != p && q in t && t[q] == u[q];
        forall k: Corner
          ensures q + [k] !in u
        {
          ReplacedUp(p, full, q, k);
        }
      }
    }
  }

  lemma DividedQueued(f: Facts, t: Spots, u: Spots, p: Path, full: set<nat>)
    requires Queued(t) && p in t
    requires p in u && u[p] == t[p].(objects := u[p].objects) && forall o :: o in u[p].objects ==> o in t[p].objects
    requires SameBut(t[p := u[p]], u, p, full) && AllFresh(f, u, p, full, t[p].objects)
    ensures Queued(u)
  {
    hide Aims, Sends, RegionAt;
    forall q | q in u && !(q in t && u[q] == t[q])
      ensures q == p || (Fresh(f, u, q, t[p].objects) && q != [])
    {
      if q != p { assert Replaced(p, full, q); }
    }
  }

  /** The first visit keeps the invariants. */
  lemma DividedKeeps(f: Facts, t: Spots, p: Path)
    requires Sound(f.root, t) && p in t && !t[p].built
    ensures Sound(f.root, Divided(f, t, p))
  {
    hide Branched, Unique, Lives, Queued, Divided, Sends, Stay, SameBut, AllFresh;
    DividedLaw(f, t, p);
    StayMembers(f, t, p);
    DividedBranched(f, t, p);
    DividedUnique(f, t, p);
    DividedLives(f, t, Divided(f, t, p), p, Sends(f, t, p));
    DividedQueued(f, t, Divided(f, t, p), p, Sends(f, t, p));
  }

  lemma DividedInPlace(f: Facts, t: Spots, p: Path, loose: set<GameObject>)
    requires InPlace(f, t, loose) && p in t
    ensures InPlace(f, Divided(f, t, p), loose)
  {
    hide Divided, Sends, Stay, Aims, RegionAt, Box.Contains, Box.IsPoint;
    DividedLaw(f, t, p);
    StayMembers(f, t, p);
    var u, full := Divided(f, t, p), Sends(f, t, p);
    forall q, o | q in u && q != [] && o in u[q].objects && o !in loose && !f.BoxOf(o).IsPoint()
      ensures RegionAt(f.root, q).Contains(f.BoxOf(o))
    {
      if Replaced(p, full, q) {
        assert Fresh(f, u, q, t[p].objects);
      } else {
        assert q in t && o in t[q].objects;
      }
    }
  }
}
