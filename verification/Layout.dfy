/**
  The octree as a value: which node lists which objects, and what each operation makes of that.
  A tree is a map from paths, the corners taken from the root, to the contents of its nodes.
 */
module Layout {
  import opened Geometry
  import opened Objects
  import opened Sequences
  import opened Wrappers

  type Corner = c: nat | c < 8
  type Path = seq<Corner>

  function Up(p: Path): Path
    requires p != []
  {
    p[..|p| - 1]
  }

  function Last(p: Path): Corner
    requires p != []
  {
    p[|p| - 1]
  }

  /** What the octree reads off the objects, none of which it changes: their boxes and which are marked. */
  datatype Facts = Facts(root: Box, boxes: map<GameObject, Box>, marked: set<GameObject>) {
    function BoxOf(o: GameObject): Box {
      if o in boxes then boxes[o] else root
    }
  }

  /** The fields of one node, apart from its links. */
  datatype Spot = Spot(objects: seq<GameObject>, queue: seq<GameObject>,
                       lifespan: int, maxLifespan: int, built: bool, ready: bool)

  type Spots = map<Path, Spot>

  /** `CreateNode`: a node that was not visited yet. */
  function NewSpot(list: seq<GameObject>): Spot {
    Spot(list, [], -1, 8, false, false)
  }

  /** A tree together with the objects whose dirty flag is set. */
  datatype Tree = Tree(spots: Spots, dirty: set<GameObject>)

  function At(t: Spots, p: Path): Spot {
    if p in t then t[p] else NewSpot([])
  }

  ghost predicate Leaf(t: Spots, p: Path) {
    forall c: Corner :: p + [c] !in t
  }

  ghost function Kids(t: Spots, p: Path): (k: set<Corner>)
    ensures forall c: Corner :: c in k <==> p + [c] in t
    ensures k == {} <==> Leaf(t, p)
  {
    set c: Corner | p + [c] in t
  }

  /** The region of the node at a path. */
  function RegionAt(root: Box, p: Path): Box {
    if p == [] then root else Octant(RegionAt(root, Up(p)), Last(p))
  }

  lemma RegionBelow(root: Box, p: Path, c: Corner)
    ensures RegionAt(root, p + [c]) == Octant(RegionAt(root, p), c)
    ensures !Tiny(RegionAt(root, p)) ==> Level(RegionAt(root, p + [c])) < Level(RegionAt(root, p))
  {
    assert Up(p + [c]) == p;
    if !Tiny(RegionAt(root, p)) { LevelFalls(RegionAt(root, p), c); }
  }

  lemma {:induction false} RegionNonNegative(root: Box, q: Path)
    requires root.NonNegative()
    ensures RegionAt(root, q).NonNegative()
  {
    if q != [] {
      RegionNonNegative(root, Up(q));
      OctantShape(RegionAt(root, Up(q)), Last(q));
    }
  }

  /** What lies in a node's region lies in the regions of all its ancestors. */
  lemma {:induction false} AncestorContains(root: Box, q: Path, i: nat, box: Box)
    requires root.NonNegative() && i <= |q| && RegionAt(root, q).Contains(box)
    ensures RegionAt(root, q[..i]).Contains(box)
    decreases |q|
  {
    if i == |q| {
      assert q[..i] == q;
    } else {
      RegionNonNegative(root, Up(q));
      OctantInside(RegionAt(root, Up(q)), Last(q), box);
      AncestorContains(root, Up(q), i, box);
      assert Up(q)[..i] == q[..i];
    }
  }

  lemma OutsideRoot(root: Box, q: Path, box: Box)
    requires root.NonNegative() && !root.Contains(box)
    ensures !RegionAt(root, q).Contains(box)
  {
    hide Box.Contains;
    assert q[..0] == [];
    if RegionAt(root, q).Contains(box) { AncestorContains(root, q, 0, box); }
  }

  // ---------- insertion ----------

  /** The first corner from `c` on whose octant holds the box, 8 if there is none. */
  function Fit(region: Box, box: Box, c: nat): (k: nat)
    requires c <= 8
    ensures c <= k <= 8
    ensures k < 8 ==> Octant(region, k).Contains(box)
    ensures forall d: nat :: c <= d < k ==> !Octant(region, d).Contains(box)
    decreases 8 - c
  {
    if c == 8 || Octant(region, c).Contains(box) then c else Fit(region, box, c + 1)
  }

  /** Where `Insert` called on the node at `p` puts a box; nowhere if it answers false. */
  ghost function Dest(root: Box, t: Spots, p: Path, box: Box): Option<Path>
    decreases if RegionAt(root, p).Contains(box) then 0 else 1,
              if RegionAt(root, p).Contains(box) then Level(RegionAt(root, p)) else |p|
  {
    var region := RegionAt(root, p);
    if p !in t then Some(p)
    else if t[p].objects == [] && Leaf(t, p) then Some(p)
    else if Tiny(region) then Some(p)
    else if !region.Contains(box) then
      if p == [] then None else Dest(root, t, Up(p), box)
    else
      var c := Fit(region, box, 0);
      if c == 8 then Some(p)
      else
        RegionBelow(root, p, c);
        Dest(root, t, p + [c], box)
  }

  /** The object at the end of the list at `q`, in a new node if there is none. */
  function Put(t: Spots, q: Path, o: GameObject): Spots {
    t[q := At(t, q).(objects := At(t, q).objects + [o])]
  }

  ghost function Inserted(f: Facts, t: Spots, p: Path, o: GameObject): Spots {
    match Dest(f.root, t, p, f.BoxOf(o))
    case None => t
    case Some(q) => Put(t, q, o)
  }

  ghost function AllInserted(f: Facts, t: Spots, p: Path, list: seq<GameObject>, i: nat): Spots
    decreases |list| - i
  {
    if i >= |list| then t else AllInserted(f, Inserted(f, t, p, list[i]), p, list, i + 1)
  }

  // ---------- division ----------

  /** The octant an object is handed to when its node is divided, 8 if it stays. */
  function Target(f: Facts, region: Box, o: GameObject): (k: nat)
    ensures k <= 8
    ensures k < 8 ==> Octant(region, k).Contains(f.BoxOf(o))
  {
    if f.BoxOf(o).IsPoint() then 8 else Fit(region, f.BoxOf(o), 0)
  }

  /** `BuildTree` goes on past its early returns. */
  predicate Divides(f: Facts, region: Box, own: seq<GameObject>) {
    !(|own| == 1 && region.Contains(f.BoxOf(own[0]))) && !Tiny(region)
  }

  ghost function Aimed(f: Facts, region: Box, own: seq<GameObject>, c: nat): set<GameObject> {
    set o | o in own && Target(f, region, o) == c
  }

  /** The objects handed to corner `c`, or kept for `c == 8`. */
  ghost function Handed(f: Facts, region: Box, own: seq<GameObject>, c: nat): seq<GameObject> {
    Within(own, Aimed(f, region, own, c))
  }

  /** The tree without the node at `r` and all below it. */
  ghost function Cut(t: Spots, r: Path): Spots {
    map q | q in t && !(r <= q) :: t[q]
  }

  /** `BuildTree` of the node at `p`. */
  ghost function Divided(f: Facts, t: Spots, p: Path): Spots
    decreases Level(RegionAt(f.root, p)), 9
  {
    var region, own := RegionAt(f.root, p), At(t, p).objects;
    if p in t && Divides(f, region, own)
    then CornersDone(f, t[p := t[p].(objects := Handed(f, region, own, 8))], p, own, 0)
    else t
  }

  /** The loop over the corners from `c` on: a corner that receives objects gets a new child, which is divided. */
  ghost function CornersDone(f: Facts, t: Spots, p: Path, own: seq<GameObject>, c: nat): Spots
    requires c <= 8 && !Tiny(RegionAt(f.root, p))
    decreases Level(RegionAt(f.root, p)), 8 - c
  {
    if c == 8 then t
    else
      RegionBelow(f.root, p, c);
      var list := Handed(f, RegionAt(f.root, p), own, c);
      var next := if list == [] then t else Divided(f, Cut(t, p + [c])[p + [c] := NewSpot(list)], p + [c]);
      CornersDone(f, next, p, own, c + 1)
  }

  // ---------- visits ----------

  /** `if (!mReady) { ... }` for the node at `p`. */
  ghost function Refreshed(f: Facts, t: Spots, p: Path): Spots {
    var s := At(t, p);
    if s.ready then t
    else
      var u := if !s.built then Divided(f, t[p := s.(objects := s.objects + s.queue, queue := [])], p)
               else AllInserted(f, t[p := s.(queue := [])], p, s.queue, 0);
      u[p := At(u, p).(built := true, ready := true)]
  }

  /** `2 * max`, stored in an `int8_t`. */
  function Doubled(max: int): int {
    (2 * max + 128) % 256 - 128
  }

  /** The countdown starts and falls in an empty leaf; objects end it and double the next one. */
  function Countdown(empty: bool, leaf: bool, lifespan: int, max: int): (int, int) {
    if !empty then (-1, if lifespan != -1 && max <= 64 then Doubled(max) else max)
    else if !leaf || (lifespan <= 0 && lifespan != -1) then (lifespan, max)
    else (if lifespan == -1 then max else lifespan - 1, max)
  }

  ghost function Aged(t: Spots, p: Path): Spots {
    var s := At(t, p);
    var (lifespan, max) := Countdown(s.objects == [], Leaf(t, p), s.lifespan, s.maxLifespan);
    t[p := s.(lifespan := lifespan, maxLifespan := max)]
  }

  /** Without the objects of this node that are marked for deletion. */
  ghost function Swept(f: Facts, t: Spots, p: Path): Spots {
    t[p := At(t, p).(objects := Unmarked(f, At(t, p).objects))]
  }

  ghost function Unmarked(f: Facts, s: seq<GameObject>): seq<GameObject> {
    Within(s, Elems(s) - f.marked)
  }

  /** A child whose countdown is over dies, or lives on if it holds objects. */
  ghost function Judged(t: Spots, r: Path): Spots {
    if r !in t || t[r].lifespan != 0 then t
    else if t[r].objects == [] then Cut(t, r)
    else t[r := t[r].(lifespan := -1)]
  }

  ghost function Pruned(t: Spots, p: Path, c: nat): Spots
    requires c <= 8
    decreases 8 - c
  {
    if c == 8 then t else Pruned(Judged(t, p + [c]), p, c + 1)
  }

  /** The first node from `p` upwards whose region holds the box, or the root. */
  ghost function Around(root: Box, p: Path, box: Box): (q: Path)
    ensures q <= p && (q == [] || RegionAt(root, q).Contains(box))
    ensures forall i :: |q| < i <= |p| ==> !RegionAt(root, p[..i]).Contains(box)
  {
    if RegionAt(root, p).Contains(box) || p == [] then
      p
    else
      assert forall i :: 0 <= i < |p| ==> Up(p)[..i] == p[..i];
      assert p[..|p|] == p;
      Around(root, Up(p), box)
  }

  /** Where a moved object starts its way back into the tree. */
  ghost function Climbed(root: Box, p: Path, box: Box): Path {
    if box.IsPoint() then p else Around(root, p, box)
  }

  ghost function Relocated(f: Facts, t: Spots, p: Path, o: GameObject): Spots {
    Inserted(f, t[p := At(t, p).(objects := Without(At(t, p).objects, o))], Climbed(f.root, p, f.BoxOf(o)), o)
  }

  ghost function AllRelocated(f: Facts, t: Spots, p: Path, moved: seq<GameObject>, i: nat): Spots
    decreases |moved| - i
  {
    if i >= |moved| then t else AllRelocated(f, Relocated(f, t, p, moved[i]), p, moved, i + 1)
  }

  /** A visit up to the search for moved objects. */
  ghost function Prepared(f: Facts, t: Spots, p: Path): Spots {
    Swept(f, Aged(Refreshed(f, t, p), p), p)
  }

  ghost function Moved(t: Tree, p: Path): seq<GameObject> {
    Within(At(t.spots, p).objects, t.dirty)
  }

  /** `Update` of the node at `p`. */
  ghost function Visited(f: Facts, t: Tree, p: Path): Tree
    decreases Level(RegionAt(f.root, p)), 10
  {
    var start := Tree(Prepared(f, t.spots, p), t.dirty);
    var moved := Moved(start, p);
    var pruned := Tree(Pruned(start.spots, p, 0), t.dirty - Elems(moved));
    var below := KidsVisited(f, pruned, p, Kids(pruned.spots, p), 0);
    Tree(AllRelocated(f, below.spots, p, moved, 0), below.dirty)
  }

  /** The loop over the children from corner `c` on; `flags` are those that were there when it began. */
  ghost function KidsVisited(f: Facts, t: Tree, p: Path, flags: set<Corner>, c: nat): Tree
    requires c <= 8
    decreases Level(RegionAt(f.root, p)), 8 - c
  {
    if c == 8 then t
    else if c !in flags || Tiny(RegionAt(f.root, p)) then KidsVisited(f, t, p, flags, c + 1)
    else
      RegionBelow(f.root, p, c);
      KidsVisited(f, Visited(f, t, p + [c]), p, flags, c + 1)
  }

  // ---------- queries ----------

  /** What a query asks of a bounding box; the two query routines differ in nothing else. */
  datatype Query = InRegion(box: Box) | InRadius(sphere: Sphere) {
    predicate Meets(b: Box) {
      match this
      case InRegion(box) => box.Intersects(b)
      case InRadius(sphere) => sphere.Intersects(b)
    }
  }

  predicate Accepts(f: Facts, query: Query, types: seq<nat>, o: GameObject) {
    (types == [] || o.noun in types) && query.Meets(f.BoxOf(o))
  }

  /** The plain scan over a list of objects. */
  ghost function Scan(f: Facts, query: Query, types: seq<nat>, list: seq<GameObject>): seq<GameObject> {
    Within(list, set o | o in list && Accepts(f, query, types, o))
  }

  /** What a query of the node at `p` reports. */
  ghost function Found(f: Facts, t: Spots, query: Query, types: seq<nat>, p: Path): seq<GameObject>
    decreases Level(RegionAt(f.root, p)), 9
  {
    if p !in t || !t[p].built then [] else FoundUpTo(f, t, query, types, p, 8)
  }

  /** ... and what it has reported when `c` children are done. */
  ghost function FoundUpTo(f: Facts, t: Spots, query: Query, types: seq<nat>, p: Path, c: nat): seq<GameObject>
    requires c <= 8
    decreases Level(RegionAt(f.root, p)), c
  {
    if c == 0 then Scan(f, query, types, At(t, p).objects)
    else
      var r := p + [c - 1];
      RegionBelow(f.root, p, c - 1);
      FoundUpTo(f, t, query, types, p, c - 1) +
      if r in t && !Tiny(RegionAt(f.root, p)) && query.Meets(RegionAt(f.root, r))
      then Found(f, t, query, types, r) else []
  }
}
