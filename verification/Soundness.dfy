/** The invariants of the octree, and why insertion keeps them. */
module Soundness {
  import opened Geometry
  import opened Layout
  import opened Objects
  import opened Sequences
  import opened Wrappers

  /** The paths form a tree, and tiny regions are not divided. */
  ghost predicate Branched(root: Box, t: Spots) {
    [] in t && forall q: Path, c: Corner :: q + [c] in t ==> q in t && !Tiny(RegionAt(root, q))
  }

  /** Every object is in at most one list, once. */
  ghost predicate Unique(t: Spots) {
    && (forall q :: q in t ==> NoDup(t[q].objects))
    && (forall q, r, o :: q in t && r in t && o in t[q].objects && o in t[r].objects ==> q == r)
  }

  /** A node whose lifespan runs and that holds nothing has no children; before its first visit none runs. */
  ghost predicate Lives(t: Spots) {
    forall q :: q in t ==>
      && (t[q].lifespan != -1 && t[q].objects == [] ==> Leaf(t, q))
      && (!t[q].built ==> t[q].lifespan == -1)
  }

  /** Only the root has a queue, of objects that are in no list; other nodes are ready from their first visit on. */
  ghost predicate Queued(t: Spots) {
    && (forall q :: q in t && q != [] ==> t[q].queue == [] && t[q].ready == t[q].built)
    && (forall q :: q in t ==> NoDup(t[q].queue) && (t[q].queue != [] ==> !t[q].ready) && (t[q].ready ==> t[q].built))
    && (forall q, r, o :: q in t && r in t && o in t[q].queue ==> o !in t[r].objects)
  }

  ghost predicate Sound(root: Box, t: Spots) {
    Branched(root, t) && Unique(t) && Lives(t) && Queued(t)
  }

  lemma SoundBranches(root: Box, t: Spots)
    requires Sound(root, t)
    ensures Branched(root, t)
  {}

  /** Every object with volume, except the `loose` ones, lies in its node's region or in the root. */
  ghost predicate InPlace(f: Facts, t: Spots, loose: set<GameObject>) {
    forall q, o :: q in t && q != [] && o in t[q].objects && o !in loose && !f.BoxOf(o).IsPoint() ==>
      RegionAt(f.root, q).Contains(f.BoxOf(o))
  }

  /** Nodes stay, with their age, and their lists grow at the end, except for the node at `p` and those below it. */
  ghost predicate Grows(t: Spots, u: Spots, p: Path) {
    forall q :: q in t && !(p <= q) ==>
      q in u && u[q] == t[q].(objects := u[q].objects) && t[q].objects <= u[q].objects
  }

  lemma GrowsJoins(t: Spots, u: Spots, v: Spots, p: Path, r: Path)
    requires Grows(t, u, p) && Grows(u, v, r) && p <= r
    ensures Grows(t, v, p)
  {
    forall q | q in t && r <= q
      ensures p <= q
    {
      assert q[..|p|] == r[..|p|] == p;
    }
  }

  /** Every prefix of a path in the tree is in the tree. */
  lemma {:induction false} PrefixIn(root: Box, t: Spots, q: Path, i: nat)
    requires Branched(root, t) && q in t && i <= |q|
    ensures q[..i] in t
    ensures i < |q| ==> !Tiny(RegionAt(root, q[..i])) && q[..i] + [q[i]] in t && q[..i + 1] == q[..i] + [q[i]]
    decreases |q| - i
  {
    if i == |q| {
      assert q[..i] == q;
    } else {
      PrefixIn(root, t, q, i + 1);
      assert q[..i + 1] == q[..i] + [q[i]];
    }
  }

  /** A path below `p` leads through one of its corners. */
  lemma UnderCorner(p: Path, c: Corner, q: Path)
    ensures p + [c] <= q <==> p <= q && q != p && q[|p|] == c
  {
    assert p <= q && q != p && q[|p|] == c ==> q[..|p| + 1] == p + [c];
    assert p + [c] <= q ==> q[..|p|] == (p + [c])[..|p|] == p;
  }

  /** A prefix of a longer path is one of the shorter, or all of it. */
  lemma PrefixOrWhole(p: Path, q: Path, k: Corner)
    ensures p <= q + [k] ==> p <= q || p == q + [k]
  {
    if |p| <= |q| { assert (q + [k])[..|p|] == q[..|p|]; }
  }

  lemma SameCorner(p: Path, c: Corner, q: Path, d: Corner)
    ensures p + [c] == q + [d] <==> p == q && c == d
  {
    assert Up(p + [c]) == p && Up(q + [d]) == q && Last(p + [c]) == c && Last(q + [d]) == d;
  }

  /** Every node from the root to `q` was visited: queries have no reason to stop on the way. */
  ghost predicate PathBuilt(t: Spots, q: Path) {
    forall i :: 0 <= i <= |q| ==> q[..i] in t && t[q[..i]].built
  }

  // ---------- where Insert puts an object ----------

  /** A node, or a place for a new node below one that is no empty leaf. */
  ghost predicate Open(root: Box, t: Spots, q: Path) {
    q in t || (q != [] && Up(q) in t && !Tiny(RegionAt(root, Up(q))) && (t[Up(q)].objects != [] || !Leaf(t, Up(q))))
  }

  lemma {:induction false} DestFits(root: Box, t: Spots, p: Path, box: Box)
    requires Branched(root, t) && Open(root, t, p) && Dest(root, t, p, box).Some?
    ensures var q := Dest(root, t, p, box).value;
            Open(root, t, q) && (q in t && !Leaf(t, q) ==> Fit(RegionAt(root, q), box, 0) == 8)
    decreases if RegionAt(root, p).Contains(box) then 0 else 1,
              if RegionAt(root, p).Contains(box) then Level(RegionAt(root, p)) else |p|
  {
    var region := RegionAt(root, p);
    if p in t && !(t[p].objects == [] && Leaf(t, p)) {
      if Tiny(region) {
        assert Leaf(t, p);
      } else if !region.Contains(box) {
        assert p == Up(p) + [Last(p)];
        DestFits(root, t, Up(p), box);
      } else {
        var c := Fit(region, box, 0);
        if c < 8 {
          RegionBelow(root, p, c);
          assert Up(p + [c]) == p;
          DestFits(root, t, p + [c], box);
        }
      }
    }
  }

  /** Called on the root, or on a node around the box, `Insert` puts it there or further down, in a node around it. */
  lemma {:induction false} DestHolds(root: Box, t: Spots, p: Path, box: Box)
    requires (p == [] || RegionAt(root, p).Contains(box)) && Dest(root, t, p, box).Some?
    ensures var q := Dest(root, t, p, box).value; p <= q && (q == [] || RegionAt(root, q).Contains(box))
    decreases Level(RegionAt(root, p))
  {
    var region := RegionAt(root, p);
    if p in t && !(t[p].objects == [] && Leaf(t, p)) && !Tiny(region) && region.Contains(box) {
      var c := Fit(region, box, 0);
      if c < 8 {
        RegionBelow(root, p, c);
        DestHolds(root, t, p + [c], box);
        UnderCorner(p, c, Dest(root, t, p, box).value);
      }
    }
  }

  /** `Insert` answers false only for a box outside the root's region. */
  lemma {:induction false} DestNone(root: Box, t: Spots, p: Path, box: Box)
    requires Dest(root, t, p, box) == None
    ensures !root.Contains(box) && !RegionAt(root, p).Contains(box)
    decreases if RegionAt(root, p).Contains(box) then 0 else 1,
              if RegionAt(root, p).Contains(box) then Level(RegionAt(root, p)) else |p|
  {
    var region := RegionAt(root, p);
    if region.Contains(box) {
      var c := Fit(region, box, 0);
      RegionBelow(root, p, c);
      DestNone(root, t, p + [c], box);
    } else if p != [] {
      DestNone(root, t, Up(p), box);
    }
  }

  // ---------- insertion keeps the invariants ----------

  /** An object that is in no list and no queue. */
  ghost predicate Nowhere(t: Spots, o: GameObject) {
    forall q :: q in t ==> o !in t[q].objects && o !in t[q].queue
  }

  lemma PutBranched(root: Box, t: Spots, q: Path, o: GameObject)
    requires Branched(root, t) && Open(root, t, q)
    ensures Branched(root, Put(t, q, o))
  {
    var u := Put(t, q, o);
    forall r: Path, c: Corner | r + [c] in u
      ensures r in u && !Tiny(RegionAt(root, r))
    {
      assert Up(r + [c]) == r;
    }
  }

  lemma PutLeaves(t: Spots, q: Path, o: GameObject, r: Path)
    requires Leaf(t, r) && (q in t || q == [] || Up(q) != r)
    ensures Leaf(Put(t, q, o), r)
  {
    forall c: Corner
      ensures r + [c] !in Put(t, q, o)
    {
      assert Up(r + [c]) == r;
    }
  }

  lemma PutLives(root: Box, t: Spots, q: Path, o: GameObject)
    requires Lives(t) && Open(root, t, q)
    ensures Lives(Put(t, q, o))
  {
    var u := Put(t, q, o);
    forall r | r in u && u[r].lifespan != -1 && u[r].objects == []
      ensures Leaf(u, r)
    {
      assert r in t && t[r] == u[r];
      PutLeaves(t, q, o, r);
    }
  }

  lemma PutUnique(t: Spots, q: Path, o: GameObject)
    requires Unique(t) && Nowhere(t, o)
    ensures Unique(Put(t, q, o))
  {
    NoDupJoin(At(t, q).objects, [o]);
    var u := Put(t, q, o);
    forall r, s, x | r in u && s in u && x in u[r].objects && x in u[s].objects
      ensures r == s
    {
      assert r != q ==> r in t && x in t[r].objects;
      assert s != q ==> s in t && x in t[s].objects;
      if x != o {
        assert r == q ==> r in t && x in t[r].objects;
        assert s == q ==> s in t && x in t[s].objects;
      }
    }
  }

  lemma PutQueued(t: Spots, q: Path, o: GameObject)
    requires Queued(t) && Nowhere(t, o)
    ensures Queued(Put(t, q, o))
  {
    var u := Put(t, q, o);
    forall r, s, x | r in u && s in u && x in u[r].queue
      ensures x !in u[s].objects
    {
      assert r in t && t[r].queue == u[r].queue;
      assert s in t ==> x !in t[s].objects;
    }
  }

  lemma PutKeeps(root: Box, t: Spots, q: Path, o: GameObject)
    requires Sound(root, t) && Open(root, t, q) && Nowhere(t, o)
    ensures Sound(root, Put(t, q, o))
  {
    hide Branched, Unique, Lives, Queued, Open, Nowhere, Put;
    PutBranched(root, t, q, o);
    PutUnique(t, q, o);
    PutLives(root, t, q, o);
    PutQueued(t, q, o);
  }

  lemma InsertedKeeps(f: Facts, t: Spots, p: Path, o: GameObject)
    requires Sound(f.root, t) && p in t && Nowhere(t, o)
    ensures Sound(f.root, Inserted(f, t, p, o))
    ensures forall q :: q in t ==> q in Inserted(f, t, p, o)
  {
    hide Branched, Unique, Lives, Queued, Nowhere, Dest;
    if Dest(f.root, t, p, f.BoxOf(o)).Some? {
      assert Branched(f.root, t);
      DestFits(f.root, t, p, f.BoxOf(o));
      PutKeeps(f.root, t, Dest(f.root, t, p, f.BoxOf(o)).value, o);
    }
  }

  lemma InsertedGrows(f: Facts, t: Spots, p: Path, o: GameObject, r: Path)
    ensures Grows(t, Inserted(f, t, p, o), r)
  {
    hide Dest;
  }

  /** ... and the object is in place, if it was inserted from the root or from a region around it. */
  lemma InsertedInPlace(f: Facts, t: Spots, p: Path, o: GameObject, loose: set<GameObject>)
    requires InPlace(f, t, loose + {o})
    requires p == [] || RegionAt(f.root, p).Contains(f.BoxOf(o)) || f.BoxOf(o).IsPoint()
    requires Nowhere(t, o)
    ensures InPlace(f, Inserted(f, t, p, o), loose)
  {
    hide Dest, Box.Contains, Box.IsPoint;
    var d := Dest(f.root, t, p, f.BoxOf(o));
    if d.Some? && !f.BoxOf(o).IsPoint() {
      DestHolds(f.root, t, p, f.BoxOf(o));
    }
  }
}
