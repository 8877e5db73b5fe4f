/** Where insertion and division put an object, step by step down the tree and in numbers. */
module Placement {
  import opened Division
  import opened Geometry
  import opened Layout
  import opened Objects
  import opened Sequences
  import opened Soundness
  import opened Wrappers

  /** No extent of the region is above 1. */
  predicate Small(region: Box) { region.extent.AtMost(Vec3(1.0, 1.0, 1.0)) }

  /** An extent of the box is zero. */
  predicate Flat(box: Box) { box.extent.x == 0.0 || box.extent.y == 0.0 || box.extent.z == 0.0 }

  /** The octant of that corner holds the box, and none before it does. */
  ghost predicate First(region: Box, box: Box, k: Corner) {
    Octant(region, k).Contains(box) && forall j: Corner :: j < k ==> !Octant(region, j).Contains(box)
  }

  ghost predicate NoOctant(region: Box, box: Box) { forall j: Corner :: !Octant(region, j).Contains(box) }

  lemma FitIs(region: Box, box: Box)
    ensures var c := Fit(region, box, 0);
            (forall k: Corner :: c == k <==> First(region, box, k)) && (c == 8 <==> NoOctant(region, box))
  {
    hide Octant, Box.Contains;
  }

  lemma FirstIsOne(region: Box, box: Box, j: Corner, k: Corner)
    requires First(region, box, j) && First(region, box, k)
    ensures j == k
  {
    hide Octant, Box.Contains;
  }

  // ---------- insertion ----------

  ghost predicate EmptyLeaf(t: Spots, q: Path) { q in t && t[q].objects == [] && forall k: Corner :: q + [k] !in t }

  /** A node that is no empty leaf and not small hands the box down to the first octant that holds it. */
  ghost predicate HandsDown(root: Box, t: Spots, r: Path, box: Box, k: Corner) {
    r in t && !EmptyLeaf(t, r) && !Small(RegionAt(root, r)) && First(RegionAt(root, r), box, k)
  }

  /** It stays in a new node, an empty leaf, a small one, or where no octant holds it. */
  ghost predicate Takes(root: Box, t: Spots, q: Path, box: Box) {
    q !in t || EmptyLeaf(t, q) || Small(RegionAt(root, q)) || NoOctant(RegionAt(root, q), box)
  }

  /** What `Insert` does at a node around the box. */
  lemma DestStep(root: Box, t: Spots, p: Path, box: Box)
    requires RegionAt(root, p).Contains(box)
    ensures Takes(root, t, p, box) ==> Dest(root, t, p, box) == Some(p)
    ensures !Takes(root, t, p, box) ==>
              var c := Fit(RegionAt(root, p), box, 0);
              && c < 8 && HandsDown(root, t, p, box, c) && RegionAt(root, p + [c]).Contains(box)
              && Level(RegionAt(root, p + [c])) < Level(RegionAt(root, p))
              && Dest(root, t, p, box) == Dest(root, t, p + [c], box)
  {
    hide Octant, Box.Contains, Level, First, NoOctant, Fit;
    var c := Fit(RegionAt(root, p), box, 0);
    FitIs(RegionAt(root, p), box);
    FitHolds(RegionAt(root, p), box);
    if c < 8 { RegionBelow(root, p, c); }
  }

  lemma {:induction false} DestWay(root: Box, t: Spots, p: Path, box: Box)
    requires RegionAt(root, p).Contains(box)
    ensures var d := Dest(root, t, p, box);
            && d.Some? && p <= d.value && Takes(root, t, d.value, box)
            && forall i :: |p| <= i < |d.value| ==> HandsDown(root, t, d.value[..i], box, d.value[i])
    decreases Level(RegionAt(root, p))
  {
    hide Box.Contains, Level, Fit, Takes, HandsDown, Dest, RegionAt;
    DestStep(root, t, p, box);
    if !Takes(root, t, p, box) {
      var c := Fit(RegionAt(root, p), box, 0);
      DestWay(root, t, p + [c], box);
      var d := Dest(root, t, p + [c], box).value;
      UnderCorner(p, c, d);
      assert d[..|p|] == p;
    }
  }

  lemma FitHolds(region: Box, box: Box)
    ensures Fit(region, box, 0) < 8 ==> Octant(region, Fit(region, box, 0)).Contains(box)
  {}

  /** From a node around the box the object goes to exactly this place. */
  lemma DestIff(root: Box, t: Spots, p: Path, box: Box, q: Path)
    requires RegionAt(root, p).Contains(box)
    ensures Dest(root, t, p, box) == Some(q) <==>
            && p <= q && Takes(root, t, q, box)
            && forall i :: |p| <= i < |q| ==> HandsDown(root, t, q[..i], box, q[i])
  {
    hide Box.Contains, First, NoOctant, Dest, Takes, HandsDown;
    DestWay(root, t, p, box);
    var d := Dest(root, t, p, box).value;
    if p <= q && Takes(root, t, q, box) && (forall i :: |p| <= i < |q| ==> HandsDown(root, t, q[..i], box, q[i])) {
      OneWay(root, t, p, box, d, q, |p|);
    }
  }

  /** Two such ways never part. */
  lemma {:induction false} OneWay(root: Box, t: Spots, p: Path, box: Box, d: Path, q: Path, i: nat)
    requires |p| <= i <= |d| && i <= |q| && d[..i] == q[..i]
    requires Takes(root, t, d, box) && forall j :: |p| <= j < |d| ==> HandsDown(root, t, d[..j], box, d[j])
    requires Takes(root, t, q, box) && forall j :: |p| <= j < |q| ==> HandsDown(root, t, q[..j], box, q[j])
    ensures d == q
    decreases |d| - i
  {
    hide Octant, Box.Contains, EmptyLeaf;
    assert d[..|d|] == d && q[..|q|] == q;
    if i < |d| && i < |q| {
      FirstIsOne(RegionAt(root, d[..i]), box, d[i], q[i]);
      assert d[..i + 1] == d[..i] + [d[i]] && q[..i + 1] == q[..i] + [q[i]];
      OneWay(root, t, p, box, d, q, i + 1);
    } else if i < |d| {
      TakesOrHands(root, t, q, box, d[i]);
    } else if i < |q| {
      TakesOrHands(root, t, d, box, q[i]);
    }
  }

  lemma TakesOrHands(root: Box, t: Spots, r: Path, box: Box, k: Corner)
    ensures !(Takes(root, t, r, box) && HandsDown(root, t, r, box, k))
  {
    hide Octant, Box.Contains, EmptyLeaf, Small;
  }

  /** Nodes that do not hold the box pass it up, unless they are empty leaves or small. */
  lemma {:induction false} DestClimbs(root: Box, t: Spots, p: Path, box: Box, a: Path)
    requires a <= p
    requires forall i :: |a| < i <= |p| ==>
               && p[..i] in t && !EmptyLeaf(t, p[..i]) && !Small(RegionAt(root, p[..i]))
               && !RegionAt(root, p[..i]).Contains(box)
    ensures Dest(root, t, p, box) == Dest(root, t, a, box)
    decreases |p|
  {
    hide Box.Contains, Octant;
    assert p[..|p|] == p;
    if a != p {
      assert forall i :: 0 <= i <= |Up(p)| ==> Up(p)[..i] == p[..i];
      DestClimbs(root, t, Up(p), box, a);
    }
  }

  /** Where that ends outside the box: in an empty leaf or small node, or with false at the root. */
  lemma DestOutside(root: Box, t: Spots, a: Path, box: Box)
    requires a in t && !RegionAt(root, a).Contains(box)
    ensures EmptyLeaf(t, a) || Small(RegionAt(root, a)) ==> Dest(root, t, a, box) == Some(a)
    ensures a == [] && !EmptyLeaf(t, a) && !Small(root) ==> Dest(root, t, a, box) == None
  {
    hide Box.Contains;
  }

  /**
    A moved object is taken off its list and inserted again, from the first node upwards around its box, or the root;
    from its own node if an extent of the box is zero.
   */
  lemma {:induction false} RelocatedFrom(f: Facts, t: Spots, p: Path, o: GameObject, a: Path)
    requires a <= p && if Flat(f.BoxOf(o)) then a == p else a == [] || RegionAt(f.root, a).Contains(f.BoxOf(o))
    requires forall i :: |a| < i <= |p| ==> !RegionAt(f.root, p[..i]).Contains(f.BoxOf(o))
    ensures Relocated(f, t, p, o) ==
            Inserted(f, t[p := At(t, p).(objects := Without(At(t, p).objects, o))], a, o)
  {
    hide Box.Contains, RegionAt, Inserted, Around;
    if !Flat(f.BoxOf(o)) { AroundIs(f.root, p, f.BoxOf(o), a); }
  }

  lemma AroundIs(root: Box, p: Path, box: Box, a: Path)
    requires a <= p && (a == [] || RegionAt(root, a).Contains(box))
    requires forall i :: |a| < i <= |p| ==> !RegionAt(root, p[..i]).Contains(box)
    ensures Around(root, p, box) == a
  {
    hide Box.Contains, RegionAt;
    var q := Around(root, p, box);
    assert q == p[..|q|] && a == p[..|a|];
  }

  // ---------- division ----------

  /** The objects that division takes from `p` towards `q`: each octant on the way is the first around their boxes. */
  ghost predicate Through(f: Facts, p: Path, q: Path, o: GameObject) {
    && p <= q && (p < q ==> !Flat(f.BoxOf(o)))
    && forall i :: |p| <= i < |q| ==> First(RegionAt(f.root, q[..i]), f.BoxOf(o), q[i])
  }

  ghost function Crowd(f: Facts, p: Path, q: Path, own: seq<GameObject>): set<GameObject> {
    set o | o in own && Through(f, p, q, o)
  }

  /** A region is divided if it is not small and not all there is in it is one object that it holds. */
  ghost predicate Splits(f: Facts, p: Path, q: Path, own: seq<GameObject>) {
    !Small(RegionAt(f.root, q)) &&
    forall o :: o in own && Crowd(f, p, q, own) == {o} ==> !RegionAt(f.root, q).Contains(f.BoxOf(o))
  }

  /** The objects of `own` at `p` that end at `q`: those on the way there that are not taken further. */
  ghost predicate Rests(f: Facts, p: Path, q: Path, own: seq<GameObject>, o: GameObject) {
    && Through(f, p, q, o) && (forall i :: |p| <= i < |q| ==> Splits(f, p, q[..i], own))
    && (Splits(f, p, q, own) ==> Flat(f.BoxOf(o)) || NoOctant(RegionAt(f.root, q), f.BoxOf(o)))
  }

  lemma TargetIs(f: Facts, region: Box, o: GameObject)
    ensures var k := Target(f, region, o);
            && (k < 8 ==> !Flat(f.BoxOf(o)) && First(region, f.BoxOf(o), k))
            && (forall c: Corner :: First(region, f.BoxOf(o), c) ==> Flat(f.BoxOf(o)) || k == c)
            && (k == 8 <==> Flat(f.BoxOf(o)) || NoOctant(region, f.BoxOf(o)))
  {
    hide Octant, Box.Contains, First, NoOctant, Fit;
    var box := f.BoxOf(o);
    FitIs(region, box);
    if !Flat(box) {
      var k := Fit(region, box, 0);
      assert k < 8 ==> First(region, box, k);
    }
  }

  lemma DividesIff(f: Facts, p: Path, own: seq<GameObject>)
    requires NoDup(own)
    ensures Divides(f, RegionAt(f.root, p), own) <==> Splits(f, p, p, own)
  {
    hide RegionAt, Box.Contains, Octant;
    assert forall o :: Through(f, p, p, o);
    var crowd := Crowd(f, p, p, own);
    if |own| == 1 {
      assert own == [own[0]] && crowd == {own[0]};
    } else if |own| > 1 {
      assert own[0] in crowd && own[1] in crowd && own[0] != own[1];
    }
  }

  /** Below a corner of `p` there pass the objects that were handed to it. */
  lemma CrowdBelow(f: Facts, p: Path, c: Corner, q: Path, own: seq<GameObject>)
    requires p + [c] <= q
    ensures Crowd(f, p + [c], q, Handed(f, RegionAt(f.root, p), own, c)) == Crowd(f, p, q, own)
    ensures forall o :: o in own && Through(f, p, q, o) ==> o in Handed(f, RegionAt(f.root, p), own, c)
  {
    hide RegionAt, Octant, Box.Contains, Handed, Target, First;
    var list := Handed(f, RegionAt(f.root, p), own, c);
    HandedMembers(f, RegionAt(f.root, p), own, c);
    UnderCorner(p, c, q);
    assert q[..|p|] == p;
    forall o | o in own
      ensures o in list && Through(f, p + [c], q, o) <==> Through(f, p, q, o)
    {
      TargetIs(f, RegionAt(f.root, p), o);
      if Through(f, p, q, o) { assert First(RegionAt(f.root, q[..|p|]), f.BoxOf(o), q[|p|]); }
    }
  }

  lemma RestsUp(f: Facts, p: Path, c: Corner, q: Path, own: seq<GameObject>, o: GameObject)
    requires o in own && p + [c] <= q && Splits(f, p, p, own)
    requires Rests(f, p + [c], q, Handed(f, RegionAt(f.root, p), own, c), o)
    requires Target(f, RegionAt(f.root, p), o) == c
    ensures Rests(f, p, q, own, o)
  {
    hide RegionAt, Octant, Box.Contains, Handed, Target, First, Crowd, NoOctant, Small;
    UnderCorner(p, c, q);
    assert q[..|p|] == p;
    TargetIs(f, RegionAt(f.root, p), o);
    forall i | |p| <= i <= |q|
      ensures i == |p| ||
              (Splits(f, p + [c], q[..i], Handed(f, RegionAt(f.root, p), own, c)) <==> Splits(f, p, q[..i], own))
    {
      if i > |p| {
        assert p + [c] <= q[..i];
        CrowdBelow(f, p, c, q[..i], own);
        HandedMembers(f, RegionAt(f.root, p), own, c);
        SplitsSame(f, p, c, q[..i], own);
      }
    }
    assert q[..|q|] == q;
  }

  lemma SplitsSame(f: Facts, p: Path, c: Corner, q: Path, own: seq<GameObject>)
    requires p + [c] <= q
    requires Crowd(f, p + [c], q, Handed(f, RegionAt(f.root, p), own, c)) == Crowd(f, p, q, own)
    ensures Splits(f, p + [c], q, Handed(f, RegionAt(f.root, p), own, c)) <==> Splits(f, p, q, own)
  {
    hide RegionAt, Octant, Box.Contains, Handed, First, Small, Through;
    HandedMembers(f, RegionAt(f.root, p), own, c);
    var list := Handed(f, RegionAt(f.root, p), own, c);
    forall o | Crowd(f, p, q, own) == {o}
      ensures o in own && o in list
    {
      assert o in Crowd(f, p, q, own) && o in Crowd(f, p + [c], q, list);
    }
  }

  /** Every object of a divided node comes to such a place. */
  lemma {:induction false} DividedRests(f: Facts, t: Spots, p: Path, o: GameObject) returns (q: Path)
    requires p in t && o in t[p].objects && NoDup(t[p].objects)
    ensures q in Divided(f, t, p) && o in Divided(f, t, p)[q].objects && Rests(f, p, q, t[p].objects, o)
    decreases Level(RegionAt(f.root, p)), 9
  {
    hide Octant, Tiny, Level, RegionAt, Target, Handed, Rests, Splits, Box.Contains;
    var region, own := RegionAt(f.root, p), t[p].objects;
    q := p;
    DividedLaw(f, t, p);
    DividesIff(f, p, own);
    RestsHere(f, p, own, o);
    if Divides(f, region, own) {
      HandedMembers(f, region, own, 8);
      if Target(f, region, o) < 8 {
        NotTiny(f, region, own);
        q := CornersRest(f, t[p := t[p].(objects := Handed(f, region, own, 8))], p, own, 0, o);
        RestsUp(f, p, Target(f, region, o), q, own, o);
      }
    }
  }

  lemma RestsHere(f: Facts, p: Path, own: seq<GameObject>, o: GameObject)
    ensures Rests(f, p, p, own, o) <==> !Splits(f, p, p, own) || Target(f, RegionAt(f.root, p), o) == 8
  {
    hide Octant, RegionAt, Target, Splits, Box.Contains, NoOctant;
    TargetIs(f, RegionAt(f.root, p), o);
  }

  lemma {:induction false} CornersRest(f: Facts, t: Spots, p: Path, own: seq<GameObject>, c: nat, o: GameObject)
    returns (q: Path)
    requires p in t && o in own && NoDup(own) && c <= Target(f, RegionAt(f.root, p), o) < 8
    requires !Tiny(RegionAt(f.root, p))
    ensures var u, k := CornersDone(f, t, p, own, c), Target(f, RegionAt(f.root, p), o);
            && q in u && o in u[q].objects && p + [k] <= q
            && Rests(f, p + [k], q, Handed(f, RegionAt(f.root, p), own, k), o)
    decreases Level(RegionAt(f.root, p)), 8 - c
  {
    hide Octant, Tiny, Level, RegionAt, Target, Handed, Divided, Aims, Rests, Fresh, NoDup;
    var r, list := p + [c], Handed(f, RegionAt(f.root, p), own, c);
    var next := t;
    RegionBelow(f.root, p, c);
    HandedMembers(f, RegionAt(f.root, p), own, c);
    if list != [] {
      HandedFits(f, RegionAt(f.root, p), own, c);
      SpawnLaw(f, t, r, list);
      next := Divided(f, Cut(t, r)[r := NewSpot(list)], r);
      assert p in next by { assert !(r <= p); }
    }
    if Target(f, RegionAt(f.root, p), o) == c {
      assert o in list;
      q := DividedRests(f, Cut(t, r)[r := NewSpot(list)], r, o);
      RestsUnder(f, r, q, list, o);
      CornersKeep(f, next, p, own, c, q);
    } else {
      q := CornersRest(f, next, p, own, c + 1, o);
    }
  }

  /** The corners after `c` leave alone what is below `c`. */
  lemma CornersKeep(f: Facts, t: Spots, p: Path, own: seq<GameObject>, c: Corner, q: Path)
    requires p in t && !Tiny(RegionAt(f.root, p)) && q in t && p + [c] <= q
    ensures var u := CornersDone(f, t, p, own, c + 1); q in u && u[q] == t[q]
  {
    hide Octant, Tiny, RegionAt, Handed, CornersDone, Aims, Fresh;
    CornersLaw(f, t, p, own, c + 1);
    UnderCorner(p, c, q);
  }

  lemma RestsUnder(f: Facts, p: Path, q: Path, own: seq<GameObject>, o: GameObject)
    requires Rests(f, p, q, own, o)
    ensures p <= q
  {}

  lemma RestsOrGoes(f: Facts, p: Path, q: Path, own: seq<GameObject>, o: GameObject, k: Corner)
    requires Rests(f, p, q, own, o) && Splits(f, p, q, own) && !Flat(f.BoxOf(o))
    ensures !First(RegionAt(f.root, q), f.BoxOf(o), k)
  {
    hide Octant, RegionAt, Splits, Box.Contains;
  }

  /** There is only one such place for each. */
  lemma RestsOnce(f: Facts, p: Path, own: seq<GameObject>, o: GameObject, q: Path, r: Path, i: nat)
    requires Rests(f, p, q, own, o) && Rests(f, p, r, own, o)
    requires |p| <= i <= |q| && i <= |r| && q[..i] == r[..i]
    ensures q == r
    decreases |q| - i
  {
    hide Octant, RegionAt, Splits, Box.Contains;
    assert q[..|q|] == q && r[..|r|] == r;
    if i < |q| && i < |r| {
      FirstIsOne(RegionAt(f.root, q[..i]), f.BoxOf(o), q[i], r[i]);
      assert q[..i + 1] == q[..i] + [q[i]] && r[..i + 1] == r[..i] + [r[i]];
      RestsOnce(f, p, own, o, q, r, i + 1);
    } else if i < |q| {
      RestsOrGoes(f, p, r, own, o, q[i]);
    } else if i < |r| {
      RestsOrGoes(f, p, q, own, o, r[i]);
    }
  }

  /** After a division an object of the node is at exactly that place. */
  lemma DividedIff(f: Facts, t: Spots, p: Path, o: GameObject, q: Path)
    requires Unique(t) && p in t && o in t[p].objects
    ensures q in Divided(f, t, p) && o in Divided(f, t, p)[q].objects <==> Rests(f, p, q, t[p].objects, o)
  {
    hide Rests, Divided, RegionAt, NoDup;
    var r := DividedRests(f, t, p, o);
    DividedUnique(f, t, p);
    if Rests(f, p, q, t[p].objects, o) {
      RestsUnder(f, p, q, t[p].objects, o);
      RestsUnder(f, p, r, t[p].objects, o);
      RestsOnce(f, p, t[p].objects, o, q, r, |p|);
    }
  }
}
