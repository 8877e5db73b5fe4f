/**
  The octree: heap nodes with parent pointers, children, object lists and lifespans. Each method is proved to
  make of the tree what the function of `Layout` named in its contract says.
 */
module Octree {
  import opened Division
  import opened Geometry
  import opened Layout
  import opened Objects
  import opened Outcomes
  import opened Search
  import opened Sequences
  import opened Soundness
  import opened Updates
  import opened Visits

  /** A change at a corner of the node at `top`, seen from the node at `at`. */
  datatype Site = Site(top: Path, corner: Corner, at: Path)

  /** The ghost view of one whole tree, shared by its nodes. */
  class Space {
    ghost const root: Box
    ghost var nodes: map<Path, OctTree>
    /** The contents of the nodes. */
    ghost var spots: Spots
    /** The objects that were ever enqueued. */
    ghost var known: set<GameObject>
    /** What an update has seen of the objects when it began, and which of them are still dirty. */
    ghost var facts: Facts
    ghost var dirty: set<GameObject>

    ghost constructor (root: Box)
      ensures this.root == root && nodes == map[] && spots == map[] && known == {}
    {
      this.root, nodes, spots, known := root, map[], map[], {};
      facts, dirty := Facts(root, map[], {}), {};
    }

    // ---------- nodes and links ----------

    ghost predicate Shape()
      reads this`nodes, nodes.Values`child, nodes.Values`active
    {
      && [] in nodes && root.NonNegative()
      && (forall p :: p in nodes ==>
            nodes[p].path == p && nodes[p].space == this && |nodes[p].child| == 8
            && nodes[p].region == RegionAt(root, p))
      && (forall p {:trigger Linked(p)} :: p in nodes && |nodes[p].child| == 8 ==> Linked(p))
    }

    /** The node's links agree with the paths. */
    ghost predicate Linked(p: Path)
      requires p in nodes && |nodes[p].child| == 8
      reads this`nodes, nodes.Values`child, nodes.Values`active
    {
      var n := nodes[p];
      && (p == [] ==> n.parent == null)
      && (p != [] ==> Up(p) in nodes && n.parent == nodes[Up(p)] && !Tiny(RegionAt(root, Up(p))))
      && (forall c: Corner :: (c in n.active <==> n.child[c] != null) && (p + [c] in nodes <==> n.child[c] != null))
      && (forall c: Corner :: n.child[c] != null ==> p + [c] in nodes && nodes[p + [c]] == n.child[c])
    }

    /** The contents of the nodes are those of `spots`, and their objects are known. */
    ghost predicate Contents()
      reads this`nodes, this`spots, this`known, nodes.Values`objects, nodes.Values`queue, nodes.Values`lifespan,
        nodes.Values`maxLifespan, nodes.Values`built, nodes.Values`ready
    {
      && spots.Keys == nodes.Keys
      && (forall p :: p in nodes ==> nodes[p].Value() == spots[p])
      && (forall p :: p in nodes ==> Elems(nodes[p].objects) <= known && Elems(nodes[p].queue) <= known)
    }

    ghost predicate Mirror()
      reads this, nodes.Values
    {
      Shape() && Contents()
    }

    /** A node has a child at a corner exactly when the longer path is in the tree. */
    lemma ChildIff(p: Path, c: Corner)
      requires Shape() && p in nodes
      ensures p + [c] in nodes <==> nodes[p].child[c] != null
      ensures p + [c] in nodes <==> c in nodes[p].active
      ensures p + [c] in nodes ==> nodes[p + [c]] == nodes[p].child[c]
      ensures p + [c] in nodes ==> !Tiny(RegionAt(root, p))
      ensures p + [c] in nodes ==> nodes[p + [c]].path == p + [c] && nodes[p + [c]].space == this
    {
      assert Linked(p);
      if p + [c] in nodes {
        assert Linked(p + [c]) && Up(p + [c]) == p;
      }
    }

    lemma Parent(p: Path)
      requires Shape() && p in nodes
      ensures p == [] ==> nodes[p].parent == null
      ensures p != [] ==> Up(p) in nodes && nodes[p].parent == nodes[Up(p)]
      ensures p != [] ==> nodes[Up(p)].path == Up(p) && nodes[Up(p)].space == this
    {
      assert Linked(p);
    }

    lemma Branches()
      requires Mirror()
      ensures Branched(root, spots)
    {
      forall q: Path, c: Corner | q + [c] in spots
        ensures q in spots && !Tiny(RegionAt(root, q))
      {
        assert Linked(q + [c]) && Up(q + [c]) == q;
      }
    }

    lemma Mirrored()
      requires Mirror()
      ensures spots.Keys == nodes.Keys && forall q :: q in nodes ==> nodes[q].built == spots[q].built
      ensures All(spots) <= known
    {
      hide Shape;
      forall q, o | q in spots && o in spots[q].objects
        ensures o in known
      {
        assert o in Elems(nodes[q].objects);
      }
    }

    /** The active children are those the tree has. */
    lemma ActiveKids(p: Path)
      requires Mirror() && p in nodes
      ensures nodes[p].active == Kids(spots, p)
      ensures nodes[p].active == {} <==> Leaf(spots, p)
    {
      assert Linked(p);
    }

    /** Replacing what hangs at a corner leaves every other node well linked. */
    twostate lemma Replanted(s: Site)
      requires old(Shape()) && s.top in old(nodes) && s.top in nodes && !Tiny(RegionAt(root, s.top))
      requires |old(nodes)[s.top].child| == 8
      requires nodes.Keys == (set q | q in old(nodes) && !(s.top + [s.corner] <= q)) + {s.top + [s.corner]}
      requires forall q :: q in nodes && q != s.top + [s.corner] ==> nodes[q] == old(nodes)[q]
      requires nodes[s.top].child == old(nodes[s.top].child)[s.corner := nodes[s.top + [s.corner]]]
      requires nodes[s.top].active == old(nodes[s.top].active) + {s.corner}
      requires forall q :: q in nodes && q != s.top && q != s.top + [s.corner] ==>
        nodes[q].child == old(nodes[q].child) && nodes[q].active == old(nodes[q].active)
      requires s.at in nodes && s.at != s.top + [s.corner]
      ensures |nodes[s.at].child| == 8 && Linked(s.at)
    {
      hide RegionAt;
      var Site(top, corner, p) := s;
      var r := top + [corner];
      assert old(Linked(p));
      if p != [] {
        assert r <= Up(p) ==> r <= p;
      }
      forall c: Corner
        ensures r <= p + [c] && !(r <= p) ==> r == p + [c]
        ensures p + [c] == r <==> p == top && c == corner
      {
        PrefixOrWhole(r, p, c);
        SameCorner(p, c, top, corner);
      }
    }

    /** Cutting a subtree off leaves every remaining node well linked. */
    twostate lemma CutOff(s: Site)
      requires old(Shape()) && s.top in old(nodes) && s.top in nodes
      requires |old(nodes)[s.top].child| == 8
      requires nodes == map q | q in old(nodes) && !(s.top + [s.corner] <= q) :: old(nodes)[q]
      requires nodes[s.top].child == old(nodes[s.top].child)[s.corner := null]
      requires nodes[s.top].active == old(nodes[s.top].active) - {s.corner}
      requires forall q :: q in nodes && q != s.top ==>
        nodes[q].child == old(nodes[q].child) && nodes[q].active == old(nodes[q].active)
      requires s.at in nodes
      ensures |nodes[s.at].child| == 8 && Linked(s.at)
    {
      hide RegionAt;
      var Site(top, corner, p) := s;
      var r := top + [corner];
      assert old(Linked(p));
      if p != [] {
        assert r <= Up(p) ==> r <= p;
        assert Up(p) + [Last(p)] == p;
      }
      forall c: Corner
        ensures r <= p + [c] && !(r <= p) ==> r == p + [c]
        ensures p + [c] == r <==> p == top && c == corner
      {
        PrefixOrWhole(r, p, c);
        SameCorner(p, c, top, corner);
      }
    }

    /** Nodes not below `r` stay, and those that are new are new objects. */
    twostate predicate Grown(r: Path)
      reads this`nodes
    {
      && (forall q :: q in nodes && !(q in old(nodes) && nodes[q] == old(nodes)[q]) ==> fresh(nodes[q]))
      && (forall q :: q in old(nodes) && !(r <= q && q != r) ==> q in nodes && nodes[q] == old(nodes)[q])
    }

    /** All nodes stay. */
    twostate predicate Stay()
      reads this`nodes
    {
      && (forall q :: q in nodes && q !in old(nodes) ==> fresh(nodes[q]))
      && (forall q :: q in old(nodes) ==> q in nodes && nodes[q] == old(nodes)[q])
    }

    // ---------- objects ----------

    /** What the octree can see of the objects now. */
    ghost function Look(): Facts
      reads this`known, known`box, known`marked
    {
      Facts(root, map o | o in known :: o.box, set o | o in known && o.marked)
    }

    ghost function Dirty(): set<GameObject>
      reads this`known, known`dirty
    {
      set o | o in known && o.dirty
    }

    ghost predicate Boxes(f: Facts)
      reads this`known, known`box
    {
      f.root == root && forall o :: o in known ==> f.BoxOf(o) == o.box
    }

    /** The view taken when an update began is still right, and the dirty flags are those recorded. */
    ghost predicate Seen()
      reads this`known, this`facts, this`dirty, known`box, known`dirty, known`marked
    {
      && Boxes(facts)
      && (forall o :: o in known ==> (o in facts.marked <==> o.marked))
      && dirty == Dirty()
    }

    /** The tree and the dirty flags as they are now. */
    ghost function Now(): Tree
      reads this`spots, this`known, known`dirty
    {
      Tree(spots, Dirty())
    }

    /** The invariant between updates. */
    ghost predicate Valid()
      reads this, nodes.Values, known`box, known`dirty, known`marked
    {
      Mirror() && Steady(root, spots) && InPlace(Look(), spots, Dirty())
    }

    /** Between updates objects may move, if that makes them dirty, without harm to the invariant. */
    twostate lemma MovesAreHarmless()
      requires old(Valid()) && unchanged(this) && forall p :: p in nodes ==> unchanged(nodes[p])
      requires forall o :: o in known ==> o.dirty || (o.box == old(o.box) && !old(o.dirty))
      ensures Valid()
    {
      hide Steady, RegionAt, Box.Contains, Box.IsPoint;
    }
  }

  class OctTree {
    const region: Box
    const parent: OctTree?

    var objects: seq<GameObject>
    var queue: seq<GameObject>
    var child: seq<OctTree?>
    var active: set<Corner>
    var maxLifespan: int
    var lifespan: int
    var built: bool
    var ready: bool

    ghost const path: Path
    ghost const space: Space

    constructor (region: Box)
      requires region.NonNegative()
      ensures fresh(space) && path == [] && this.region == region && space.root == region
      ensures space.nodes == map[[] := this] && space.spots == map[[] := NewSpot([])] && space.known == {}
      ensures Attached() && space.Valid()
    {
      this.region, parent := region, null;
      objects, queue, child, active := [], [], seq(8, _ => null), {};
      maxLifespan, lifespan, built, ready := 8, -1, false, false;
      path := [];
      space := new Space(region);
      new;
      space.nodes := map[[] := this];
      space.spots := map[[] := NewSpot([])];
      NewIsSound(region);
    }

    /** `CreateNode`: a node below `parent` with its first objects. */
    constructor Child(region: Box, parent: OctTree, objects: seq<GameObject>, ghost corner: Corner)
      ensures this.region == region && this.parent == parent
      ensures path == parent.path + [corner] && space == parent.space
      ensures child == seq(8, _ => null) && active == {} && Value() == NewSpot(objects)
      ensures this.objects == objects && queue == [] && lifespan == -1 && maxLifespan == 8 && !built && !ready
    {
      this.region, this.parent, this.objects := region, parent, objects;
      queue, child, active := [], seq(8, _ => null), {};
      maxLifespan, lifespan, built, ready := 8, -1, false, false;
      path := parent.path + [corner];
      space := parent.space;
    }

    ghost function Value(): Spot
      reads this`objects, this`queue, this`lifespan, this`maxLifespan, this`built, this`ready
    {
      Spot(objects, queue, lifespan, maxLifespan, built, ready)
    }

    ghost predicate Attached()
      reads space`nodes
    {
      path in space.nodes && space.nodes[path] == this
    }

    lemma Others()
      requires Attached() && space.Shape()
      ensures |child| == 8 && region == RegionAt(space.root, path) && [] in space.nodes
      ensures forall q :: q in space.nodes && q != path ==> space.nodes[q] != this
    {}

    /** The view of the tree after a change of this node's own contents. */
    twostate lemma Rewritten()
      requires old(space.Contents()) && space.Shape() && Attached() && space.nodes == old(space.nodes)
      requires space.spots == old(space.spots)[path := Value()]
      requires Elems(objects) <= space.known && Elems(queue) <= space.known && old(space.known) <= space.known
      requires forall q :: q in space.nodes && q != path ==>
        space.nodes[q].Value() == old(space.nodes[q].Value())
      ensures space.Mirror()
    {
      hide Space.Shape, RegionAt;
      Others();
    }

    /** What a node knows of itself. */
    lemma Here()
      requires Attached() && space.Mirror()
      ensures path in space.spots && space.spots[path] == Value() && Elems(objects) <= space.known
      ensures region == RegionAt(space.root, path) && |child| == 8 && space.root.NonNegative()
      ensures active == Kids(space.spots, path) && (active == {} <==> Leaf(space.spots, path))
    {
      hide RegionAt;
      space.ActiveKids(path);
    }

    // ---------- insertion ----------

    /** `mObjects.push_back(object)`. */
    method Push(o: GameObject)
      requires Attached() && space.Mirror() && o in space.known
      modifies this`objects, space`spots
      ensures space.Mirror() && space.spots == Put(old(space.spots), path, o)
    {
      hide Space.Shape, RegionAt;
      Others();
      objects := objects + [o];
      space.spots := Put(space.spots, path, o);
      Rewritten();
    }

    /** `mChildNode[corner] = CreateNode(...)` with the bit set: what hung there before is no longer in the tree. */
    method Plant(corner: Corner, list: seq<GameObject>)
      requires Attached() && space.Mirror() && !Tiny(region) && Elems(list) <= space.known
      modifies this`child, this`active, space`nodes, space`spots
      ensures Attached() && space.Mirror() && space.Grown(path)
      ensures space.spots == Cut(old(space.spots), path + [corner])[path + [corner] := NewSpot(list)]
      ensures Hung(corner)
    {
      hide Space.Shape, Space.Contents, Space.Grown, RegionAt, Octant, Tiny;
      Hang(corner, list);
      space.spots := Cut(space.spots, path + [corner])[path + [corner] := NewSpot(list)];
      HungContents(corner);
    }

    twostate lemma HungContents(corner: Corner)
      requires old(space.Contents()) && Hung(corner)
      requires var n := space.nodes[path + [corner]];
               && n.Value() == NewSpot(n.objects) && Elems(n.objects) <= space.known && space.known == old(space.known)
               && space.spots == Cut(old(space.spots), path + [corner])[path + [corner] := n.Value()]
      requires forall q :: q in space.nodes && q != path + [corner] ==>
        space.nodes[q].Value() == old(space.nodes[q].Value())
      ensures space.Contents()
    {
    }

    method Hang(corner: Corner, list: seq<GameObject>)
      requires Attached() && space.Shape() && !Tiny(region)
      modifies this`child, this`active, space`nodes
      ensures Attached() && space.Shape() && space.Grown(path)
      ensures Hung(corner) && space.nodes[path + [corner]].Value() == NewSpot(list)
    {
      hide RegionAt, Octant, Tiny, Space.Shape, Space.Linked;
      Others();
      RegionBelow(space.root, path, corner);
      ghost var r := path + [corner];
      assert !(r <= path);
      var node := new OctTree.Child(Octant(region, corner), this, list, corner);
      child := child[corner := node];
      active := active + {corner};
      space.nodes := (map q | q in space.nodes && !(r <= q) :: space.nodes[q])[r := node];
      HungShape(corner);
    }

    /** There is a new node at the corner, in place of what was there. */
    twostate predicate Hung(corner: Corner)
      reads this`child, this`active, space`nodes
    {
      var r := path + [corner];
      && space.nodes.Keys == (set q | q in old(space.nodes) && !(r <= q)) + {r}
      && (forall q :: q in space.nodes && q != r ==> space.nodes[q] == old(space.nodes)[q])
      && fresh(space.nodes[r]) && |old(child)| == |child| == 8
      && child == old(child)[corner := space.nodes[r]] && active == old(active) + {corner}
    }

    twostate lemma HungShape(corner: Corner)
      requires old(space.Shape()) && old(Attached()) && Attached() && !Tiny(region) && Hung(corner)
      requires var n := space.nodes[path + [corner]];
               && n.path == path + [corner] && n.space == space && n.child == seq(8, _ => null) && n.active == {}
               && n.region == RegionAt(space.root, path + [corner]) && n.parent == this
      requires forall q :: q in space.nodes && q != path && q != path + [corner] ==>
        space.nodes[q].child == old(space.nodes[q].child) && space.nodes[q].active == old(space.nodes[q].active)
      ensures space.Shape()
    {
      hide RegionAt, Space.Linked;
      var r := path + [corner];
      assert Up(r) == path && !(r <= []);
      forall p {:trigger space.Linked(p)} | p in space.nodes
        ensures |space.nodes[p].child| == 8 && space.Linked(p)
      {
        if p != r {
          space.Replanted(Site(path, corner, p));
        } else {
          NewLinked(corner);
        }
      }
    }

    twostate lemma NewLinked(corner: Corner)
      requires Attached() && region == RegionAt(space.root, path) && !Tiny(region) && Hung(corner)
      requires var n := space.nodes[path + [corner]]; n.child == seq(8, _ => null) && n.active == {} && n.parent == this
      ensures |space.nodes[path + [corner]].child| == 8 && space.Linked(path + [corner])
    {
      hide RegionAt;
      NoneAt(corner);
      assert Up(path + [corner]) == path;
    }

    twostate lemma NoneAt(corner: Corner)
      requires path + [corner] in space.nodes
      requires space.nodes.Keys == (set q | q in old(space.nodes) && !(path + [corner] <= q)) + {path + [corner]}
      ensures forall c: Corner :: path + [corner] + [c] !in space.nodes
    {
      forall c: Corner
        ensures path + [corner] + [c] !in space.nodes
      {
        assert path + [corner] <= path + [corner] + [c];
      }
    }

    /** A new child for a corner that has none, holding the object. */
    method Adopt(corner: Corner, o: GameObject)
      requires Attached() && space.Mirror() && !Tiny(region) && o in space.known && path + [corner] !in space.nodes
      modifies this`child, this`active, space`nodes, space`spots
      ensures space.Mirror() && space.Stay() && space.spots == Put(old(space.spots), path + [corner], o)
    {
      hide Space.Shape, RegionAt, Octant, Tiny;
      NothingBelow(corner);
      Plant(corner, [o]);
      assert [] + [o] == [o];
    }

    lemma NothingBelow(corner: Corner)
      requires space.Mirror() && path + [corner] !in space.nodes
      ensures Cut(space.spots, path + [corner]) == space.spots
      ensures forall q :: q in space.nodes ==> !(path + [corner] <= q)
    {
      hide RegionAt, Tiny;
      space.Branches();
      forall q | q in space.spots
        ensures !(path + [corner] <= q)
      {
        if |path| < |q| {
          assert path + [corner] <= q ==> q[..|path| + 1] == path + [corner];
          PrefixIn(space.root, space.spots, q, |path| + 1);
        }
      }
    }

    /** `Insert`. The first octant that holds the box takes it; a child around a box never refuses it (`DestNone`). */
    method Insert(o: GameObject) returns (ok: bool)
      requires Attached() && space.Mirror() && space.Boxes(space.facts) && o in space.known
      modifies space`nodes, space`spots
      modifies space.nodes.Values`objects, space.nodes.Values`child, space.nodes.Values`active
      ensures space.Mirror() && space.Stay()
      ensures ok <==> Dest(space.root, old(space.spots), path, o.box).Some?
      ensures space.spots == Inserted(space.facts, old(space.spots), path, o)
      decreases if region.Contains(o.box) then 0 else 1,
                if region.Contains(o.box) then Level(region) else |path|
    {
      hide Space.Shape, Space.Contents, RegionAt, Octant, Tiny, Level, Fit, Put, Box.Contains;
      Here();
      if objects == [] && active == {} {
        Push(o);
        return true;
      }
      if Tiny(region) {
        Push(o);
        return true;
      }
      space.Parent(path);
      if !region.Contains(o.box) {
        if parent != null {
          parent.Here();
          ok := parent.Insert(o);
          return;
        } else {
          return false;
        }
      }
      var corner := Fit(region, o.box, 0);
      if corner == 8 {
        Push(o);
        return true;
      }
      space.ChildIff(path, corner);
      RegionBelow(space.root, path, corner);
      if child[corner] != null {
        child[corner].Here();
        ok := child[corner].Insert(o);
      } else {
        Adopt(corner, o);
        return true;
      }
    }

    // ---------- division ----------

    /** The test of one object: point boxes stay, others go to the first octant that holds them. */
    method TargetOf(o: GameObject) returns (corner: nat)
      requires space.Boxes(space.facts) && o in space.known
      ensures corner == Target(space.facts, region, o)
    {
      corner := 8;
      if !o.box.IsPoint() {
        corner := 0;
        while corner < 8 && !Octant(region, corner).Contains(o.box)
          invariant corner <= 8 && Fit(region, o.box, 0) == Fit(region, o.box, corner)
        {
          corner := corner + 1;
        }
      }
    }

    /** The loop that hands objects to the octants: one list a corner, and the indices to erase. */
    method HandOut() returns (lists: seq<seq<GameObject>>, removed: seq<nat>)
      requires space.Boxes(space.facts) && Elems(objects) <= space.known
      ensures Sorted(space.facts, region, objects, lists, removed, |objects|)
    {
      hide Target;
      lists := seq(8, _ => []);
      removed := [];
      for index := 0 to |objects|
        invariant Sorted(space.facts, region, objects, lists, removed, index)
      {
        assert objects[index] in Elems(objects);
        var corner := TargetOf(objects[index]);
        SortedGrows(space.facts, region, objects, lists, removed, index);
        if corner < 8 {
          lists := lists[corner := lists[corner] + [objects[index]]];
          removed := removed + [index];
        }
      }
    }

    /** The loop that erases the listed indices, last first. */
    method Erase(removed: seq<nat>, ghost stay: set<GameObject>)
      requires Marks(objects, stay, removed)
      modifies this`objects
      ensures objects == Within(old(objects), stay)
    {
      hide Within, Marks;
      ghost var all := objects;
      ghost var cut := |all|;
      NoneAfter(all, stay);
      var index := |removed|;
      while index > 0
        invariant 0 <= index <= |removed| && cut <= |all|
        invariant cut == if index < |removed| then removed[index] else |all|
        invariant objects == all[..cut] + Within(all[cut..], stay)
      {
        index := index - 1;
        var at := removed[index];
        ErasedOne(all, stay, removed, index, cut);
        EraseStep(all, at, cut, Within(all[cut..], stay));
        objects := objects[..at] + objects[at + 1..];
        cut := at;
      }
      ErasedFront(all, stay, removed, cut);
    }

    /**
      `BuildTree`. A corner that receives objects gets a new child even if it has one already: then
      everything below the old child is no longer in the tree.
     */
    method BuildTree()
      requires Attached() && space.Mirror() && space.Boxes(space.facts)
      modifies this`objects, this`child, this`active, space`nodes, space`spots
      ensures Attached() && space.Mirror() && space.Grown(path)
      ensures space.spots == Divided(space.facts, old(space.spots), path)
      decreases Level(region), 2
    {
      hide Space.Shape, Space.Contents, RegionAt, Octant, Tiny, Level, Box.Contains, CornersDone, Handed;
      Here();
      if |objects| <= 1 {
        if |objects| == 1 && region.Contains(objects[0].box) {
          assert objects[0] in Elems(objects);
          return;
        }
      }
      if Tiny(region) {
        return;
      }
      if |objects| == 1 { assert objects[0] in Elems(objects); }
      ghost var own := objects;
      var lists := TakeOut();
      DivideCorners(lists, own);
    }

    /** The loops that take the objects of each octant out of this node. */
    method TakeOut() returns (lists: seq<seq<GameObject>>)
      requires Attached() && space.Mirror() && space.Boxes(space.facts)
      modifies this`objects, space`spots
      ensures space.Mirror()
      ensures space.spots ==
              old(space.spots)[path := old(Value()).(objects := Handed(space.facts, region, old(objects), 8))]
      ensures |lists| == 8 && forall k: Corner :: lists[k] == Handed(space.facts, region, old(objects), k)
    {
      hide Space.Shape, Space.Contents, RegionAt, Target, NoDup, Sorted, Marks, Within;
      Here();
      var removed;
      lists, removed := HandOut();
      SortedMarks(space.facts, region, objects, lists, removed);
      EraseAll(removed, Aimed(space.facts, region, objects, 8));
    }

    /** `Erase`, and the view of the tree after it. */
    method EraseAll(removed: seq<nat>, ghost stay: set<GameObject>)
      requires Attached() && space.Mirror() && Marks(objects, stay, removed)
      modifies this`objects, space`spots
      ensures space.Mirror()
      ensures space.spots == old(space.spots)[path := old(Value()).(objects := Within(old(objects), stay))]
    {
      hide Space.Shape, RegionAt, NoDup, Marks, Within;
      Here();
      Others();
      Erase(removed, stay);
      WithinMembers(old(objects), stay);
      space.spots := space.spots[path := Value()];
      Rewritten();
    }

    /** The loop that creates the children. */
    method DivideCorners(lists: seq<seq<GameObject>>, ghost own: seq<GameObject>)
      requires Attached() && space.Mirror() && space.Boxes(space.facts) && !Tiny(region) && Elems(own) <= space.known
      requires |lists| == 8 && forall k: Corner :: lists[k] == Handed(space.facts, region, own, k)
      modifies this`child, this`active, space`nodes, space`spots
      ensures Attached() && space.Mirror() && space.Grown(path)
      ensures region == RegionAt(space.root, path)
      ensures space.spots == CornersDone(space.facts, old(space.spots), path, own, 0)
      decreases Level(region), 1
    {
      hide Space.Shape, Space.Contents, RegionAt, Octant, Tiny, Level, Handed, Divided;
      Here();
      var corner: nat := 0;
      while corner < 8
        invariant corner <= 8 && Attached() && space.Mirror() && space.Grown(path)
        invariant CornersDone(space.facts, space.spots, path, own, corner)
          == CornersDone(space.facts, old(space.spots), path, own, 0)
      {
        if lists[corner] != [] {
          HandedKnown(corner, own);
          Spawn(corner, lists[corner]);
        }
        corner := corner + 1;
      }
    }

    lemma HandedKnown(corner: Corner, own: seq<GameObject>)
      requires Elems(own) <= space.known
      ensures Elems(Handed(space.facts, region, own, corner)) <= space.known
    {
      HandedMembers(space.facts, region, own, corner);
      forall o | o in Handed(space.facts, region, own, corner)
        ensures o in space.known
      {
        assert o in Elems(own);
      }
    }

    lemma StillAbove(corner: Corner)
      ensures !(path + [corner] <= path) && path <= path + [corner]
      ensures forall q :: q in space.nodes && path + [corner] <= q ==> path <= q && q != path
    {
      forall q: Path | q in space.nodes && path + [corner] <= q
        ensures path <= q && q != path
      {
        UnderCorner(path, corner, q);
      }
    }

    /** One turn of that loop. */
    method Spawn(corner: Corner, list: seq<GameObject>)
      requires Attached() && space.Mirror() && space.Boxes(space.facts) && !Tiny(region) && Elems(list) <= space.known
      modifies this`child, this`active, space`nodes, space`spots
      ensures Attached() && space.Mirror() && space.Grown(path)
      ensures space.spots == Divided(space.facts,
                Cut(old(space.spots), path + [corner])[path + [corner] := NewSpot(list)], path + [corner])
      decreases Level(region), 0
    {
      hide Space.Shape, Space.Contents, RegionAt, Octant, Tiny, Level, Divided;
      Here();
      RegionBelow(space.root, path, corner);
      Plant(corner, list);
      space.ChildIff(path, corner);
      child[corner].Here();
      StillAbove(corner);
      child[corner].BuildTree();
    }

    // ---------- visits ----------

    /** `for (object : mQueue) mObjects.push_back(object); mQueue.clear();` */
    method JoinQueue()
      requires Attached() && space.Mirror()
      modifies this`objects, this`queue, space`spots
      ensures space.Mirror()
      ensures space.spots ==
              old(space.spots)[path := old(Value()).(objects := old(objects) + old(queue), queue := [])]
    {
      hide Space.Shape, RegionAt;
      Here();
      Others();
      QueueKnown();
      objects := objects + queue;
      queue := [];
      space.spots := space.spots[path := Value()];
      Rewritten();
    }

    lemma QueueKnown()
      requires Attached() && space.Mirror()
      ensures Elems(queue) <= space.known && Elems(objects) + Elems(queue) == Elems(objects + queue)
    {}

    /** `mQueue.clear();` */
    method ClearQueue()
      requires Attached() && space.Mirror()
      modifies this`queue, space`spots
      ensures space.Mirror() && space.spots == Cleared(old(space.spots), path)
    {
      hide Space.Shape, RegionAt;
      Here();
      Others();
      queue := [];
      space.spots := space.spots[path := Value()];
      Rewritten();
    }

    /** `mBuilt = true;` on a first visit, and `mReady = true;`. */
    method SetFlags()
      requires Attached() && space.Mirror()
      modifies this`built, this`ready, space`spots
      ensures space.Mirror()
      ensures space.spots == old(space.spots)[path := old(Value()).(built := true, ready := true)]
    {
      hide Space.Shape, RegionAt;
      Here();
      Others();
      QueueKnown();
      built := true;
      ready := true;
      space.spots := space.spots[path := Value()];
      Rewritten();
    }

    /** `for (object : mQueue) Insert(object);` */
    method InsertQueue()
      requires Attached() && space.Mirror() && space.Boxes(space.facts)
      modifies space`nodes, space`spots
      modifies space.nodes.Values`objects, space.nodes.Values`child, space.nodes.Values`active
      ensures space.Mirror() && space.Stay()
      ensures space.spots == AllInserted(space.facts, old(space.spots), path, queue, 0)
    {
      hide Space.Shape, Space.Contents, Inserted;
      QueueKnown();
      for index := 0 to |queue|
        invariant Attached() && space.Mirror() && space.Stay()
        invariant AllInserted(space.facts, space.spots, path, queue, index)
          == AllInserted(space.facts, old(space.spots), path, queue, 0)
      {
        assert queue[index] in Elems(queue);
        var ok := Insert(queue[index]);
      }
    }

    /** `if (!mReady) { ... }`. */
    method Refresh()
      requires Attached() && space.Mirror() && space.Boxes(space.facts)
      modifies this`built, this`ready, this`queue, space`nodes, space`spots
      modifies space.nodes.Values`objects, space.nodes.Values`child, space.nodes.Values`active
      ensures Attached() && space.Mirror() && space.Grown(path)
      ensures space.spots == Refreshed(space.facts, old(space.spots), path)
    {
      hide Space.Shape, Space.Contents, Divided, AllInserted, RegionAt;
      Here();
      if !ready {
        if !built {
          JoinQueue();
          BuildTree();
        } else {
          AllInsertedCleared(space.facts, space.spots, path, queue, 0);
          InsertQueue();
          ClearQueue();
        }
        Here();
        SetFlags();
      }
    }

    /** The countdown of an empty leaf, and its end when objects come back. */
    method Age()
      requires Attached() && space.Mirror()
      modifies this`lifespan, this`maxLifespan, space`spots
      ensures space.Mirror() && space.spots == Aged(old(space.spots), path)
    {
      hide Space.Shape, RegionAt, Countdown, Leaf;
      Here();
      Others();
      QueueKnown();
      CountDown();
      space.spots := space.spots[path := Value()];
      Rewritten();
    }

    method CountDown()
      modifies this`lifespan, this`maxLifespan
      ensures (lifespan, maxLifespan) == Countdown(objects == [], active == {}, old(lifespan), old(maxLifespan))
    {
      if objects == [] {
        if active == {} {
          if lifespan == -1 {
            lifespan := maxLifespan;
          } else if lifespan > 0 {
            lifespan := lifespan - 1;
          }
        }
      } else {
        if lifespan != -1 {
          if maxLifespan <= 64 {
            maxLifespan := Doubled(maxLifespan);
          }
          lifespan := -1;
        }
      }
    }

    /** The loop that erases the objects marked for deletion, last object first. */
    method EraseMarked(ghost f: Facts)
      requires forall o :: o in objects ==> (o in f.marked <==> o.marked)
      modifies this`objects
      ensures objects == Unmarked(f, old(objects))
    {
      ghost var all, stay := objects, Elems(objects) - f.marked;
      var index := |objects| - 1;
      while index >= 0
        invariant -1 <= index < |all|
        invariant objects == all[..index + 1] + Within(all[index + 1..], stay)
      {
        assert all[index..] == [all[index]] + all[index + 1..];
        assert all[index] in all;
        if objects[index].marked {
          objects := objects[..index] + objects[index + 1..];
        }
        index := index - 1;
      }
      assert all[0..] == all;
    }

    /** The objects marked for deletion leave the tree. */
    method RemoveMarked()
      requires Attached() && space.Mirror() && space.Seen()
      modifies this`objects, space`spots
      ensures space.Mirror() && space.spots == Swept(space.facts, old(space.spots), path)
      ensures objects == Unmarked(space.facts, old(objects))
    {
      hide Space.Shape, RegionAt, Unmarked, Space.Boxes;
      Here();
      Others();
      QueueKnown();
      UnmarkedKnown(objects);
      EraseMarked(space.facts);
      space.spots := space.spots[path := Value()];
      Rewritten();
    }

    lemma UnmarkedKnown(s: seq<GameObject>)
      requires Elems(s) <= space.known
      ensures Elems(Unmarked(space.facts, s)) <= space.known && forall o :: o in s ==> o in space.known
    {
      WithinMembers(s, Elems(s) - space.facts.marked);
      assert forall o :: o in s ==> o in Elems(s);
    }

    /** The dirty objects of this node, cleaned and collected. */
    method TakeMoved() returns (moved: seq<GameObject>)
      requires Attached() && space.Mirror() && space.Seen() && NoDup(objects)
      modifies space`dirty, space.known`dirty
      ensures space.Mirror() && space.Seen()
      ensures moved == Within(objects, old(space.dirty)) && space.dirty == old(space.dirty) - Elems(moved)
    {
      hide Space.Shape, Space.Contents, RegionAt, Space.Boxes;
      Here();
      ghost var was := space.dirty;
      moved := [];
      for index := 0 to |objects|
        invariant moved == Within(objects[..index], was)
        invariant space.dirty == was - Elems(moved) && space.dirty == space.Dirty()
        invariant forall i :: index <= i < |objects| ==> objects[i] !in moved
      {
        var o := objects[index];
        assert o in Elems(objects) && objects[..index + 1] == objects[..index] + [o];
        WithinMore(objects[..index], o, was);
        assert o in space.known && (o.dirty <==> o in space.Dirty());
        assert o !in Elems(moved);
        if o.dirty {
          o.dirty := false;
          moved := moved + [o];
          space.dirty := space.dirty - {o};
        }
      }
      assert objects[..|objects|] == objects;
    }

    // ---------- pruning ----------

    /** Unlinks the child at a corner together with everything below it. */
    method Unlink(corner: Corner)
      requires Attached() && space.Mirror()
      modifies this`child, this`active, space`nodes, space`spots
      ensures Attached() && space.Mirror() && space.Grown(path)
      ensures space.spots == Cut(old(space.spots), path + [corner])
    {
      hide Space.Shape, Space.Contents, Space.Grown, RegionAt;
      Here();
      Others();
      assert !(path + [corner] <= path);
      child := child[corner := null];
      active := active - {corner};
      space.nodes := map q | q in space.nodes && !(path + [corner] <= q) :: space.nodes[q];
      space.spots := Cut(space.spots, path + [corner]);
      UnlinkedShape(corner);
      UnlinkedContents(corner);
      UnlinkedGrown(corner);
    }

    /** What hung at the corner is gone. */
    twostate predicate Unlinked(corner: Corner)
      reads this`child, this`active, space`nodes
    {
      && space.nodes == (map q | q in old(space.nodes) && !(path + [corner] <= q) :: old(space.nodes)[q])
      && |old(child)| == |child| == 8
      && child == old(child)[corner := null] && active == old(active) - {corner}
    }

    twostate lemma UnlinkedShape(corner: Corner)
      requires old(space.Shape()) && old(Attached()) && Attached() && Unlinked(corner)
      requires forall q :: q in space.nodes && q != path ==>
        space.nodes[q].child == old(space.nodes[q].child) && space.nodes[q].active == old(space.nodes[q].active)
      ensures space.Shape()
    {
      hide RegionAt, Space.Linked;
      assert !(path + [corner] <= []);
      forall p {:trigger space.Linked(p)} | p in space.nodes
        ensures |space.nodes[p].child| == 8 && space.Linked(p)
      {
        space.CutOff(Site(path, corner, p));
      }
    }

    twostate lemma UnlinkedGrown(corner: Corner)
      requires Unlinked(corner)
      ensures space.Grown(path)
    {
      assert path <= path + [corner];
      forall q | q in old(space.nodes) && path + [corner] <= q
        ensures path <= q && q != path
      {
        UnderCorner(path, corner, q);
      }
    }

    twostate lemma UnlinkedContents(corner: Corner)
      requires old(space.Contents()) && Unlinked(corner) && space.known == old(space.known)
      requires space.spots == Cut(old(space.spots), path + [corner])
      requires forall q :: q in space.nodes ==> space.nodes[q].Value() == old(space.nodes[q].Value())
      ensures space.Contents()
    {}

    /** One turn of the loop that lets children die. */
    method PruneChild(corner: Corner)
      requires Attached() && space.Mirror()
      modifies space`nodes, space`spots, this`child, this`active
      modifies (if |child| == 8 && child[corner] != null then {child[corner]} else {})`lifespan
      ensures Attached() && space.Mirror() && space.Grown(path)
      ensures space.spots == Judged(old(space.spots), path + [corner])
    {
      hide Space.Shape, Space.Contents, RegionAt;
      Here();
      space.ChildIff(path, corner);
      if corner in active {
        child[corner].Here();
        if child[corner].lifespan == 0 {
          if child[corner].objects == [] {
            Unlink(corner);
          } else {
            child[corner].Revive();
          }
        }
      }
    }

    /** `childNode->mLifespan = -1;` */
    method Revive()
      requires Attached() && space.Mirror()
      modifies this`lifespan, space`spots
      ensures space.Mirror() && space.spots == old(space.spots)[path := old(Value()).(lifespan := -1)]
    {
      hide Space.Shape, RegionAt;
      Here();
      Others();
      QueueKnown();
      lifespan := -1;
      space.spots := space.spots[path := Value()];
      Rewritten();
    }

    /** The loop that lets children die: an empty leaf whose countdown is over goes, one that holds objects lives on. */
    method PruneChildren()
      requires Attached() && space.Mirror()
      modifies space`nodes, space`spots, this`child, this`active, space.nodes.Values`lifespan
      ensures Attached() && space.Mirror() && space.Grown(path)
      ensures space.spots == Pruned(old(space.spots), path, 0)
    {
      hide Space.Shape, Space.Contents, RegionAt, Judged;
      var corner: nat := 0;
      while corner < 8
        invariant corner <= 8 && Attached() && space.Mirror() && space.Grown(path)
        invariant Pruned(space.spots, path, corner) == Pruned(old(space.spots), path, 0)
      {
        space.ChildIff(path, corner);
        Here();
        PruneChild(corner);
        corner := corner + 1;
      }
    }

    // ---------- relocation ----------

    /** The first node from here upwards whose region holds the box, or the root; this node itself for a point. */
    method Climb(box: Box) returns (current: OctTree)
      requires Attached() && space.Mirror()
      ensures current.space == space && current.Attached() && current.path == Climbed(space.root, path, box)
    {
      hide Space.Shape, Space.Contents, RegionAt, Box.Contains;
      Here();
      current := this;
      if !box.IsPoint() {
        while !current.region.Contains(box)
          invariant current.space == space && current.Attached()
          invariant Around(space.root, current.path, box) == Around(space.root, path, box)
          decreases |current.path|
        {
          current.Here();
          space.Parent(current.path);
          if current.parent == null {
            break;
          }
          current := current.parent;
          current.Here();
        }
        current.Here();
      }
    }

    /** `mObjects.erase(std::find(...))`. */
    method EraseFirst(m: GameObject)
      requires m in objects
      modifies this`objects
      ensures objects == Without(old(objects), m)
    {
      var index := 0;
      while objects[index] != m
        invariant 0 <= index < |objects| && m !in objects[..index]
        decreases |objects| - index
      {
        index := index + 1;
      }
      WithoutAt(objects, m, index);
      objects := objects[..index] + objects[index + 1..];
    }

    /** ... and the view of the tree after it. */
    method TakeOff(m: GameObject)
      requires Attached() && space.Mirror() && m in objects && NoDup(objects)
      modifies this`objects, space`spots
      ensures space.Mirror()
      ensures space.spots == old(space.spots)[path := old(Value()).(objects := Without(old(objects), m))]
    {
      hide Space.Shape, RegionAt, NoDup, Without;
      Here();
      Others();
      QueueKnown();
      WithoutMembers(objects, m);
      EraseFirst(m);
      space.spots := space.spots[path := Value()];
      Rewritten();
    }

    /** One moved object: climb to the first region around it, erase it here, insert it there. */
    method Relocate(m: GameObject)
      requires Attached() && space.Mirror() && space.Boxes(space.facts) && m in objects && NoDup(objects)
      modifies space`nodes, space`spots
      modifies space.nodes.Values`objects, space.nodes.Values`child, space.nodes.Values`active
      ensures Attached() && space.Mirror() && space.Stay()
      ensures space.spots == Relocated(space.facts, old(space.spots), path, m)
    {
      hide Space.Shape, Space.Contents, RegionAt, Without, Climbed, Inserted, NoDup;
      Here();
      assert m in Elems(objects);
      var current := Climb(m.box);
      TakeOff(m);
      var ok := current.Insert(m);
    }

    /** The loop over the moved objects. */
    method RelocateAll(moved: seq<GameObject>)
      requires Attached() && space.Mirror() && space.Boxes(space.facts) && Sound(space.root, space.spots)
      requires NoDup(moved)
      requires forall j :: 0 <= j < |moved| ==> moved[j] in objects
      requires moved != [] ==> lifespan == -1
      modifies space`nodes, space`spots
      modifies space.nodes.Values`objects, space.nodes.Values`child, space.nodes.Values`active
      ensures Attached() && space.Mirror() && space.Stay()
      ensures space.spots == AllRelocated(space.facts, old(space.spots), path, moved, 0)
    {
      hide Space.Shape, Space.Contents, RegionAt, Relocated, Sound;
      for index := 0 to |moved|
        invariant Attached() && space.Mirror() && space.Stay() && Sound(space.root, space.spots)
        invariant forall j :: index <= j < |moved| ==> moved[j] in objects
        invariant AllRelocated(space.facts, space.spots, path, moved, index)
          == AllRelocated(space.facts, old(space.spots), path, moved, 0)
      {
        Here();
        SoundLists(space.root, space.spots, path);
        RelocatedKeeps(space.facts, space.spots, path, moved[index]);
        Relocate(moved[index]);
        Here();
      }
    }

    // ---------- updates ----------

    /** The loop over the children that were active when it began. */
    method UpdateChildren()
      requires Attached() && space.Mirror() && space.Seen() && Sound(space.root, space.spots)
      modifies space`nodes, space`spots, space`dirty, space.nodes.Values, space.known`dirty
      ensures Attached() && space.Mirror() && space.Seen() && space.Grown(path)
      ensures Tree(space.spots, space.dirty) == KidsVisited(space.facts,
                Tree(old(space.spots), old(space.dirty)), path, Kids(old(space.spots), path), 0)
      decreases Level(region), 1
    {
      hide Space.Shape, Space.Contents, Space.Seen, RegionAt, Visited, Sound, Level;
      Here();
      SeenRoot();
      var flags := active;
      ghost var first := Tree(space.spots, space.dirty);
      var index: nat := 0;
      while index < 8
        invariant index <= 8 && Attached() && space.Mirror() && space.Seen() && space.Grown(path)
        invariant Sound(space.root, space.spots)
        invariant forall c: Corner :: c in flags && index <= c ==> path + [c] in space.spots
        invariant KidsVisited(space.facts, Tree(space.spots, space.dirty), path, flags, index)
          == KidsVisited(space.facts, first, path, flags, 0)
      {
        if index in flags {
          UpdateChild(index, flags);
        }
        index := index + 1;
      }
    }

    lemma SeenRoot()
      requires space.Seen()
      ensures space.facts.root == space.root && space.Boxes(space.facts)
    {}

    /** `mChildNode[index]->Update();` */
    method UpdateChild(index: Corner, ghost flags: set<Corner>)
      requires Attached() && space.Mirror() && space.Seen() && Sound(space.root, space.spots)
      requires index in flags && forall c: Corner :: c in flags && index <= c ==> path + [c] in space.spots
      modifies space`nodes, space`spots, space`dirty, space.nodes.Values, space.known`dirty
      ensures Attached() && space.Mirror() && space.Seen() && space.Grown(path) && Sound(space.root, space.spots)
      ensures !Tiny(RegionAt(space.root, path))
      ensures forall c: Corner :: c in flags && index + 1 <= c ==> path + [c] in space.spots
      ensures Tree(space.spots, space.dirty) ==
              Visited(space.facts, Tree(old(space.spots), old(space.dirty)), path + [index])
      decreases Level(region), 0
    {
      hide Space.Shape, Space.Contents, Space.Seen, RegionAt, Visited, Sound, Level, Tiny;
      Here();
      SeenRoot();
      space.ChildIff(path, index);
      child[index].Here();
      RegionBelow(space.root, path, index);
      StillAbove(index);
      VisitedKeeps(space.facts, Tree(space.spots, space.dirty), path + [index]);
      child[index].Update();
      KidGrows(old(space.spots), space.spots, path, flags, index);
    }

    /** The queue, the countdown and the marked objects. */
    method Prepare()
      requires Attached() && space.Mirror() && space.Seen()
      modifies space`nodes, space`spots, space.nodes.Values
      ensures Attached() && space.Mirror() && space.Seen() && space.Grown(path)
      ensures space.spots == Prepared(space.facts, old(space.spots), path)
    {
      hide Space.Shape, Space.Contents, Space.Seen, RegionAt, Refreshed, Aged, Swept;
      Here();
      SeenRoot();
      Refresh();
      Age();
      RemoveMarked();
    }

    /** All of `Update` up to the loop over the children. */
    method Begin() returns (moved: seq<GameObject>)
      requires Attached() && space.Mirror() && space.Seen() && Sound(space.root, space.spots)
      modifies space`nodes, space`spots, space`dirty, space.nodes.Values, space.known`dirty
      ensures Attached() && space.Mirror() && space.Seen() && space.Grown(path)
      ensures Tree(space.spots, space.dirty) == Below(space.facts, Tree(old(space.spots), old(space.dirty)), path)
      ensures moved == Moved(Tree(Prepared(space.facts, old(space.spots), path), old(space.dirty)), path)
    {
      hide Space.Shape, Space.Contents, Space.Seen, RegionAt, Sound, Prepared, Pruned, NoDup, Grows;
      Here();
      SeenRoot();
      PreparedKeeps(space.facts, space.spots, path);
      Prepare();
      Here();
      SoundLists(space.root, space.spots, path);
      moved := TakeMoved();
      Here();
      PruneChildren();
    }

    /**
      `Update` of this node and everything below it: what it makes of the tree is `Visited`, whose properties
      are those of `Visits`, `Outcomes` and `Conservation`.
     */
    method Update()
      requires Attached() && space.Mirror() && space.Seen() && Sound(space.root, space.spots)
      modifies space`nodes, space`spots, space`dirty, space.nodes.Values, space.known`dirty
      ensures Attached() && space.Mirror() && space.Seen() && space.Grown(path)
      ensures Tree(space.spots, space.dirty) ==
              Visited(space.facts, Tree(old(space.spots), old(space.dirty)), path)
      decreases Level(region), 3
    {
      hide Space.Shape, Space.Contents, Space.Seen, RegionAt, Sound, Level, Prepared, Pruned, Moved, NoDup,
        KidsVisited, AllRelocated, Grows;
      Here();
      SeenRoot();
      ghost var t := Tree(space.spots, space.dirty);
      BelowKeeps(space.facts, t, path);
      var moved := Begin();
      ghost var u := Tree(space.spots, space.dirty);
      KidsVisitedKeeps(space.facts, u, path, Kids(u.spots, path), 0);
      UpdateChildren();
      StillListed(u.spots[path].objects, space.spots[path].objects, moved);
      Here();
      SeenRoot();
      RelocateAll(moved);
    }

    // ---------- what the object manager calls ----------

    /** `Enqueue`: the object waits for the next update; if it is new to the tree the invariant holds. */
    method Enqueue(o: GameObject)
      requires Attached() && space.Mirror()
      modifies this`queue, this`ready, space`spots, space`known
      ensures space.Mirror() && space.known == old(space.known) + {o}
      ensures space.spots == old(space.spots)[path := old(Value()).(queue := old(queue) + [o], ready := false)]
      ensures path == [] && o !in All(old(space.spots)) && o !in old(queue) && old(space.Valid()) ==> space.Valid()
    {
      hide Space.Shape, Space.Contents, Space.Valid, RegionAt;
      Here();
      Others();
      QueueKnown();
      queue := queue + [o];
      ready := false;
      space.known := space.known + {o};
      space.spots := space.spots[path := Value()];
      Rewritten();
      Waits(o);
    }

    /** An object more in the queue, and among those known, changes nothing else. */
    twostate lemma Waits(o: GameObject)
      requires space.Mirror() && path in old(space.spots) && old(space.spots)[path] == old(Value())
      requires space.known == old(space.known) + {o} && forall x :: x in old(space.known) ==> unchanged(x)
      requires space.spots == old(space.spots)[path := old(Value()).(queue := old(queue) + [o], ready := false)]
      ensures path == [] && o !in All(old(space.spots)) && o !in old(queue) && old(space.Valid()) ==> space.Valid()
    {
      hide Space.Shape, Space.Contents, RegionAt, Steady, InPlace, All;
      if path == [] && o !in All(old(space.spots)) && o !in old(queue) && old(space.Valid()) {
        WaitsSteady(space.root, old(space.spots), o);
        space.Mirrored();
        SameAll(old(space.spots), space.spots, path);
        assert forall x :: x in All(space.spots) ==> x in old(space.known);
        SameInPlace(old(space.Look()), space.Look(), old(space.spots), space.spots, old(space.Dirty()), space.Dirty());
      }
    }

    /**
      The update of the whole tree. Afterwards no object of the tree is dirty or marked, those with volume are in
      place, and what was there before or in the queue remains as `Conserves` says.
     */
    method UpdateRoot()
      requires Attached() && path == [] && space.Valid()
      modifies space`nodes, space`spots, space`facts, space`dirty, space.nodes.Values, space.known`dirty
      ensures Attached() && space.Valid() && space.Grown([]) && built && ready && queue == []
      ensures space.Look() == old(space.Look()) && space.Now() == Visited(space.Look(), old(space.Now()), [])
      ensures forall o :: o in All(space.spots) ==>
                !o.dirty && !o.marked && (o in All(old(space.spots)) || o in old(queue))
      ensures InPlace(space.Look(), space.spots, {}) && space.Dirty() <= old(space.Dirty())
      ensures Conserves(space.Look(), old(space.Now()), space.Now())
    {
      hide Space.Shape, Space.Contents, RegionAt, Sound, Visited, InPlace, All, Conserves, Box.NonNegative;
      Here();
      ghost var f, t := space.Look(), space.Now();
      UpdateLaw(f, t);
      space.facts := f;
      space.dirty := t.dirty;
      Update();
      Here();
      space.Mirrored();
      Looser(f, space.spots, {}, space.Dirty());
    }

    // ---------- queries ----------

    /** The matching objects of this node and of its children, after those already found. */
    method GetObjects(out: seq<GameObject>, query: Query, types: seq<nat>, ghost f: Facts)
      returns (res: seq<GameObject>)
      requires Attached() && space.Mirror() && space.Boxes(f)
      ensures res == out + Found(f, space.spots, query, types, path)
      decreases Level(region), 1
    {
      hide Space.Shape, Space.Contents, RegionAt, Query.Meets, Level, Scan, FoundUpTo;
      Here();
      res := out;
      if !built {
        return;
      }
      res := OwnObjects(out, query, types, f);
      if active != {} {
        res := ChildObjects(out, res, query, types, f);
      } else {
        NoChildObjects(query, types, f);
      }
    }

    lemma NoChildObjects(query: Query, types: seq<nat>, f: Facts)
      requires Attached() && space.Mirror() && active == {}
      ensures FoundUpTo(f, space.spots, query, types, path, 8) == Scan(f, query, types, objects)
    {
      hide Space.Shape, Space.Contents, RegionAt, Query.Meets, Scan, Found;
      Here();
      for c := 0 to 8
        invariant FoundUpTo(f, space.spots, query, types, path, c) == Scan(f, query, types, objects)
      {
        assert path + [c] !in space.spots;
      }
    }

    /** The second loop of a query: the children that meet it. */
    method ChildObjects(ghost out: seq<GameObject>, had: seq<GameObject>, query: Query, types: seq<nat>, ghost f: Facts)
      returns (res: seq<GameObject>)
      requires Attached() && space.Mirror() && space.Boxes(f)
      requires had == out + Scan(f, query, types, objects)
      ensures res == out + FoundUpTo(f, space.spots, query, types, path, 8)
      decreases Level(region), 0
    {
      hide Space.Shape, Space.Contents, RegionAt, Query.Meets, Level, Scan, Found, Octant;
      Here();
      res := had;
      var corner: nat := 0;
      while corner < 8
        invariant corner <= 8
        invariant res == out + FoundUpTo(f, space.spots, query, types, path, corner)
      {
        space.ChildIff(path, corner);
        if child[corner] != null {
          child[corner].Here();
          RegionBelow(space.root, path, corner);
          if query.Meets(child[corner].region) {
            res := child[corner].GetObjects(res, query, types, f);
          }
        }
        corner := corner + 1;
      }
    }

    /** The first loop of a query: the objects kept at this node itself. */
    method OwnObjects(out: seq<GameObject>, query: Query, types: seq<nat>, ghost f: Facts)
      returns (res: seq<GameObject>)
      requires Attached() && space.Mirror() && space.Boxes(f)
      ensures res == out + Scan(f, query, types, objects)
    {
      hide Space.Shape, Space.Contents, RegionAt, Query.Meets;
      Here();
      res := out;
      ghost var wanted := set o | o in objects && Accepts(f, query, types, o);
      for index := 0 to |objects|
        invariant res == out + Within(objects[..index], wanted)
      {
        var o := objects[index];
        assert o in Elems(objects) && objects[..index + 1] == objects[..index] + [o];
        WithinMore(objects[..index], o, wanted);
        if (types == [] || o.noun in types) && query.Meets(o.box) {
          res := res + [o];
        }
      }
      assert objects[..|objects|] == objects;
    }

    lemma PlainFind(query: Query, types: seq<nat>)
      requires space.Mirror() && Sound(space.root, space.spots)
      ensures forall o :: o in Found(space.Look(), space.spots, query, types, []) ==>
                && o in All(space.spots) && (types == [] || o.noun in types)
                && (Proper(query) && o.box.NonNegative() ==> Touches(query, o.box))
      ensures Located(space.Look(), space.spots) && Proper(query) ==>
                forall q, o :: q in space.spots && o in space.spots[q].objects ==>
                  (o in Found(space.Look(), space.spots, query, types, []) <==>
                   (types == [] || o.noun in types) && Touches(query, o.box) && PathBuilt(space.spots, q))
    {
      hide Space.Contents, RegionAt, Query.Meets, Sound, Located, Found, All, Touches, PathBuilt, Box.NonNegative,
        Space.Linked;
      var f := space.Look();
      space.Mirrored();
      forall o | o in Found(f, space.spots, query, types, []) {
        FoundOnly(f, space.spots, query, types, o);
      }
      if Located(f, space.spots) && Proper(query) {
        forall q, o | q in space.spots && o in space.spots[q].objects
          ensures o in Found(f, space.spots, query, types, []) <==>
                  (types == [] || o.noun in types) && Touches(query, o.box) && PathBuilt(space.spots, q)
        {
          AllOf(space.spots, q);
          FoundIff(f, space.spots, query, types, q, o);
        }
      }
    }

    /**
      A query of the whole tree reports, once each, the accepted objects whose nodes it reaches. Where every object
      lies in its node's region that is the plain scan exactly when each accepted object is below built nodes only.
     */
    method Find(query: Query, types: seq<nat>) returns (found: seq<GameObject>)
      requires Attached() && path == [] && space.Mirror()
      ensures found == Found(space.Look(), space.spots, query, types, [])
      ensures Sound(space.root, space.spots) ==>
                forall o :: o in found ==>
                  && o in All(space.spots) && (types == [] || o.noun in types)
                  && (Proper(query) && o.box.NonNegative() ==> Touches(query, o.box))
      ensures Sound(space.root, space.spots) && Located(space.Look(), space.spots) && Proper(query) ==>
                forall q, o :: q in space.spots && o in space.spots[q].objects ==>
                  (o in found <==>
                   (types == [] || o.noun in types) && Touches(query, o.box) && PathBuilt(space.spots, q))
      ensures Sound(space.root, space.spots) ==>
                Lists(found, Hits(space.Look(), space.spots, query, types, [], 8))
      ensures Sound(space.root, space.spots) && Located(space.Look(), space.spots) ==>
                forall all :: Lists(all, All(space.spots)) ==>
                  (multiset(found) == multiset(Scan(space.Look(), query, types, all)) <==>
                   NoneHidden(space.Look(), space.spots, query, types))
      ensures Sound(space.root, space.spots) && Located(space.Look(), space.spots)
                && (forall q :: q in space.spots ==> space.spots[q].built) ==>
                forall all :: Lists(all, All(space.spots)) ==>
                  multiset(found) == multiset(Scan(space.Look(), query, types, all))
    {
      hide Space.Shape, Space.Contents, RegionAt, Query.Meets, Sound, Located, Lists, Hits, Found, Scan, All,
        NoneHidden, Accepts, Touches, PathBuilt, Box.NonNegative;
      Here();
      ghost var f := space.Look();
      found := GetObjects([], query, types, f);
      if Sound(space.root, space.spots) {
        PlainFind(query, types);
        FoundLists(f, space.spots, query, types, []);
        if Located(f, space.spots) {
          forall all | Lists(all, All(space.spots)) {
            QueryIsScan(f, space.spots, query, types, all);
          }
          if forall q :: q in space.spots ==> space.spots[q].built {
            forall all | Lists(all, All(space.spots)) {
              BuiltQueryIsScan(f, space.spots, query, types, all);
            }
          }
        }
      }
    }
  }

  predicate Rising(s: seq<nat>, bound: nat) {
    && (forall i, j :: 0 <= i < j < |s| ==> s[i] < s[j])
    && (forall i :: 0 <= i < |s| ==> s[i] < bound)
  }

  /** The indices are those of the elements that do not stay. */
  ghost predicate Marks(s: seq<GameObject>, stay: set<GameObject>, removed: seq<nat>) {
    Rising(removed, |s|) && forall i :: 0 <= i < |s| ==> (i in removed <==> s[i] !in stay)
  }

  /** After `n` objects: the list of each corner, and the indices of the objects in these lists. */
  ghost predicate Sorted(f: Facts, region: Box, own: seq<GameObject>, lists: seq<seq<GameObject>>, removed: seq<nat>,
                         n: nat)
    requires n <= |own|
  {
    && |lists| == 8
    && (forall k: Corner :: lists[k] == Within(own[..n], Aimed(f, region, own, k)))
    && Rising(removed, n)
    && (forall i :: 0 <= i < n ==> (i in removed <==> Target(f, region, own[i]) != 8))
  }

  lemma SortedGrows(f: Facts, region: Box, own: seq<GameObject>, lists: seq<seq<GameObject>>, removed: seq<nat>, n: nat)
    requires n < |own| && Sorted(f, region, own, lists, removed, n)
    ensures var k := Target(f, region, own[n]);
            if k == 8 then Sorted(f, region, own, lists, removed, n + 1)
            else Sorted(f, region, own, lists[k := lists[k] + [own[n]]], removed + [n], n + 1)
  {
    hide Target;
    assert own[..n + 1] == own[..n] + [own[n]];
    forall k: Corner
      ensures Within(own[..n + 1], Aimed(f, region, own, k)) ==
              Within(own[..n], Aimed(f, region, own, k)) + if Target(f, region, own[n]) == k then [own[n]] else []
    {
      WithinMore(own[..n], own[n], Aimed(f, region, own, k));
      assert own[n] in Aimed(f, region, own, k) <==> Target(f, region, own[n]) == k;
    }
  }

  lemma SortedMarks(f: Facts, region: Box, own: seq<GameObject>, lists: seq<seq<GameObject>>, removed: seq<nat>)
    requires Sorted(f, region, own, lists, removed, |own|)
    ensures Marks(own, Aimed(f, region, own, 8), removed)
    ensures |lists| == 8 && forall k: Corner :: lists[k] == Handed(f, region, own, k)
  {
    hide Target;
    assert own[..|own|] == own;
  }

  /** Between two neighbouring indices of the list every element stays. */
  lemma StaysBetween(s: seq<GameObject>, stay: set<GameObject>, removed: seq<nat>, index: int, lo: nat, hi: nat)
    requires Marks(s, stay, removed)
    requires -1 <= index < |removed| && lo == (if index == -1 then 0 else removed[index] + 1)
    requires hi == if index + 1 < |removed| then removed[index + 1] else |s|
    ensures lo <= hi <= |s| && Within(s[lo..hi], stay) == s[lo..hi]
  {
    forall k | lo <= k < hi
      ensures k !in removed
    {
      forall j | 0 <= j < |removed|
        ensures removed[j] != k
      {
        if j < index { assert removed[j] < removed[index]; }
        if j > index + 1 { assert removed[index + 1] < removed[j]; }
      }
    }
    forall x | x in s[lo..hi]
      ensures x in stay
    {
      var k :| lo <= k < hi && s[k] == x;
    }
    WithinMembers(s[lo..hi], stay);
  }

  /** One index erased: what follows it up to the next one stays. */
  lemma ErasedOne(all: seq<GameObject>, stay: set<GameObject>, removed: seq<nat>, index: nat, cut: nat)
    requires Marks(all, stay, removed) && index < |removed|
    requires cut == if index + 1 < |removed| then removed[index + 1] else |all|
    ensures var at := removed[index];
            at < cut <= |all| && Within(all[at..], stay) == all[at + 1..cut] + Within(all[cut..], stay)
  {
    var at := removed[index];
    StaysBetween(all, stay, removed, index, at + 1, cut);
    assert at in removed;
    assert all[at..] == [all[at]] + all[at + 1..cut] + all[cut..];
    WithinJoin([all[at]] + all[at + 1..cut], all[cut..], stay);
    WithinJoin([all[at]], all[at + 1..cut], stay);
  }

  lemma EraseStep(all: seq<GameObject>, at: nat, cut: nat, w: seq<GameObject>)
    requires at < cut <= |all|
    ensures var s := all[..cut] + w; s[..at] + s[at + 1..] == all[..at] + (all[at + 1..cut] + w)
  {}

  lemma NoneAfter(all: seq<GameObject>, stay: set<GameObject>)
    ensures all[..|all|] + Within(all[|all|..], stay) == all
  {}

  lemma ErasedFront(all: seq<GameObject>, stay: set<GameObject>, removed: seq<nat>, cut: nat)
    requires Marks(all, stay, removed) && cut == if removed != [] then removed[0] else |all|
    ensures cut <= |all| && Within(all, stay) == all[..cut] + Within(all[cut..], stay)
  {
    StaysBetween(all, stay, removed, -1, 0, cut);
    assert all == all[0..cut] + all[cut..] && all[0..cut] == all[..cut];
    WithinJoin(all[..cut], all[cut..], stay);
  }

  /** Being in place depends on the boxes and dirty flags of the listed objects only. */
  lemma SameInPlace(f: Facts, g: Facts, t: Spots, u: Spots, d: set<GameObject>, e: set<GameObject>)
    requires InPlace(f, t, d) && f.root == g.root
    requires forall q :: q in u ==> q in t && u[q].objects == t[q].objects
    requires forall o :: o in All(u) ==> g.BoxOf(o) == f.BoxOf(o) && (o in d ==> o in e)
    ensures InPlace(g, u, e)
  {
    hide RegionAt, Box.Contains, Box.IsPoint;
    forall q, o | q in u && o in u[q].objects
      ensures o in All(u)
    {}
  }

  lemma NewIsSound(root: Box)
    ensures Steady(root, map[[] := NewSpot([])])
  {}
}
