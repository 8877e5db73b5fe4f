# Verified models of the Darkspore server's core

Dafny models of the parts of the server that hold state, move bytes or compute geometry, with proofs of what they
promise. `dafny verify dfyconfig.toml` checks everything.

| file | what it models |
|---|---|
| `Geometry.dfy` | boxes, spheres, octants; what the box tests mean as sets of points |
| `Layout.dfy` | the spatial index as a value: what insertion, division, visits and queries make of it |
| `Soundness.dfy`, `Division.dfy`, `Visits.dfy`, `Outcomes.dfy` | its invariants and what each operation keeps and brings about |
| `Conservation.dfy`, `Settling.dfy`, `Moving.dfy`, `Updates.dfy`, `OneByOne.dfy` | which objects an update, or a run of them, keeps |
| `Placement.dfy`, `Lifespans.dfy` | where exactly objects go; how long an empty node lives |
| `Search.dfy` | what queries find |
| `Octree.dfy`, `Objects.dfy` | the spatial index itself: heap nodes with parents, children, queue, lifespans; the objects |
| `OctreeRuns.dfy`, `MovingRuns.dfy` | whole runs of it: a theorem about any list of objects, and three that go wrong |
| `Transform.dfy`, `Segment.dfy` | the transformed bounding box; closest point and distance on a segment |
| `TdfInteger.dfy`, `TdfLabel.dfy` | the variable-length integers and the packed labels of the TDF format |
| `Tdf.dfy`, `TdfLimits.dfy`, `TdfWire.dfy` | TDF trees, their bytes, what the parser reads; the round trip and where exactly it ends; plain bytes |
| `TdfBuffer.dfy`, `TdfCodec.dfy`, `TdfBuilder.dfy` | the byte buffer, the writer and parser working on it, the stack-based packet builder |
| `Attributes.dfy` | the sparse attribute list and its replication delta |
| `Effects.dfy`, `ObjectIds.dfy` | the effect-index allocator; object ids, their recycling, deletion in two steps |
| `Trigger.dfy`, `Catalysts.dfy` | trigger callbacks; the catalyst grid, its bonuses, dropping, moving and picking up |
| `Sequences.dfy`, `Wrappers.dfy` | lists without repetition and filters; an option type |

## How the octree is modelled

A node is an object of class `OctTree` with the source's fields. All nodes of a tree share a ghost `Space`: the map
from paths (corners taken from the root) to nodes, and `spots`, the contents of the nodes by path. Every method is
proved to change `spots` as a function of `Layout` says, so that the heap is left behind and what is promised is
proved about these functions: `Insert` is `Inserted`, `BuildTree` is `Divided`, `Update` is `Visited`, a query is
`Found`. What the functions read of the objects, boxes and deletion marks, is a parameter (`Facts`), since no update
changes it; the dirty flags are part of the state. What these functions compute is in turn stated without them, in
regions, points, numbers and steps down the tree (`DestIff`, `RelocatedFrom`, `DividedIff`, `ReadyAges`, `ReadyReaps`,
`FoundIff`).

`Sound` is the invariant of every run: the paths form a tree (`Branched`), each object is in at most one list, once
(`Unique`), a node whose countdown runs and that holds nothing is a leaf (`Lives`), only the root has a queue
(`Queued`). `InPlace` adds that every object with volume that has not moved lies in its node's region. The two query
recursions differ in the test only and are one method with a `Query` argument.

An unbuilt node with children replaces those to whose corners it hands objects when it is first visited. `Kept` says
that an object is listed where no such node is above it. A dirty object of the tree strays if it is not marked and
has left its node's region, but not the root's. For an update before which none strays, `Kept` is, once the queue has
entered, the exact condition for every unmarked object in the root's region to survive, whether or not it moved
(`CalmUpdate`); read with every corner some object of the node would fit, it is enough for a clean object in any update
(`SafeUpdate`).

## Findings

Properties one would expect that do not hold, each with the exact condition under which they do:

- An update can lose objects that are neither marked nor moved. `BuildTree` replaces the children at corners that
  receive objects, and an unbuilt node can have children, because queued and relocated objects are inserted below
  nodes not visited yet. The exact conditions are `DividedConserves` for one division and `CalmUpdate` for an update
  before which none strays; `UpdateLosesObject` shows it with four objects, `Enqueue` and `Update`. With an empty queue
  a tree whose nodes are all built loses no clean unmarked object (`BuiltUpdate`), and if at most two stray no unmarked
  one that has not moved out of the root's region (`TwoMoveUpdate`); a third can cost one its place
  (`ThreeMovesLoseOne`). A run from such a tree in which one object at a time is queued or moves loses no unmarked
  object inside the root's region (`RunKeepsAll`). The first update keeps every unmarked object that has not moved out
  of the root's region (`FirstUpdate`).
- Queries skip nodes that were created since the last `Update`; they equal a linear scan exactly if no accepted
  object is below one (`QueryIsScan`, `FindMissesObject`). For objects with volume they do after the
  first update, if those that moved are in the root's region (`FirstBuildFinds`), and after an update in which every
  object that moved goes back to its node (`CalmBuilds`, `BuiltQueryIsScan`).
- An empty leaf that is left alone is dropped two updates after as many as its limit says (`LeafExpires`). The limit
  doubles whenever objects come back, 8, 16, 32, 64, and then runs over to -128 (`ReadyAges`, `VisitedLimited`): then an
  empty leaf is not dropped at all, until objects come back once more and the limit is 0.
- The integer code round-trips below 2^55 only: the decoder reads eight bytes at most. It is not minimal for
  64..127, which the decoder would accept as one byte (`RoundTripIff`, `MinimalIff`).
- A blob is read as a plain string, and nothing tells it from one: written again it is a field of another type, and
  longer (`BlobBecomesString`). Stub lists do not survive, nor do unions with several members or with an address and
  none, 256 elements, elements of a kind lists cannot hold, repeated labels, empty ones in structs, and NUL characters
  (`ReturnsIff`, `WholeReturnsIff`, `LastWins`). Names of integer maps are octal after a zero (`OctalNames`).
- A trigger whose last entry leaves makes the loop step past the end, and the entry behind an erased one is skipped
  for a tick (`OverrunIff`, `FiresIff`).
- Moving a catalyst to a slot past 9 destroys it, and slot 9 reads and exchanges what lies behind the array; using
  an object that is neither loot nor crystal makes a catalyst (`StepConservesIff`). A prismatic pivot gives a bonus
  for two different colours (`BonusIff`).
- After a zero write to an absent attribute the next non-zero write erases `end()` (`SetValue`).

## Model

| member | source | states |
|---|---|---|
| `Geometry.ContainsIsInclusion` | darkspore_server/source/Game/Collision.cpp:38-42 | `Contains(box)` holds exactly when every point of the inner box lies in the outer one |
| `Geometry.IntersectsIsCommonPoint` | darkspore_server/source/Game/Collision.cpp:49-53 | `Intersects(box)` holds exactly when the two boxes share a point |
| `Geometry.ClosestIsNearest` | darkspore_server/source/Game/Collision.cpp:130-133 | the clamped centre lies in the box and is its point nearest to the sphere's centre |
| `Geometry.SphereIntersectsIsCommonPoint` | darkspore_server/source/Game/Collision.cpp:130-133 | the sphere test holds exactly when some point of the box lies in the ball |
| `Geometry.IntersectsGrows` | darkspore_server/source/Game/Octree.cpp:336-336 | a query box that meets a box meets every region containing it |
| `Geometry.SphereIntersectsGrows` | darkspore_server/source/Game/Octree.cpp:368-368 | the same for a query sphere |
| `Geometry.OctantShape` | darkspore_server/source/Game/Octree.cpp:157-166 | each octant has half the extents and its own combination of sides |
| `Geometry.OctantInside` | darkspore_server/source/Game/Octree.cpp:157-166 | a box inside an octant is inside the region that was divided |
| `Geometry.OctantUnique` | darkspore_server/source/Game/Octree.cpp:175-181 | a box with volume fits at most one octant, so the first that fits is the only one |
| `Geometry.OctantsCover` | darkspore_server/source/Game/Octree.cpp:157-166 | every point of a region lies in one of its octants |
| `Geometry.LevelFalls` | darkspore_server/source/Game/Octree.cpp:149-151 | the whole part of the largest extent falls at every division: `BuildTree` and `Insert` end |
| `Layout.AncestorContains` | darkspore_server/source/Game/Octree.cpp:311-341 | what lies in a node's region lies in the regions of all nodes above it |
| `Search.LocatedReached` | darkspore_server/source/Game/Octree.cpp:311-373 | a query that meets an object in its place is stopped on the way to it by unbuilt nodes only |
| `Search.FoundLists` | darkspore_server/source/Game/Octree.cpp:311-373 | on any sound tree, dirty or not, a query reports, once each, exactly the accepted objects whose nodes it reaches |
| `Search.QueryIsScan` | darkspore_server/source/Game/Octree.cpp:311-373 | where every object lies in its node's region, the result of a query is, as a multiset, the linear scan with the same test and types exactly when no accepted object is below an unbuilt node |
| `Search.BuiltQueryIsScan` | darkspore_server/source/Game/Octree.cpp:311-373 | with every node built, a query and the linear scan agree |
| `Search.FoundIff` | darkspore_server/source/Game/Octree.cpp:311-373 | of the objects in their nodes' regions a query reports, once each, exactly those below built nodes that are of one of the given types, or any if none is given, and share a point with the queried region or ball |
| `Search.FoundOnly` | darkspore_server/source/Game/Octree.cpp:311-373 | wherever objects lie, nothing of another type or without such a point is reported |
| `Octree.OctTree.GetObjects` | darkspore_server/source/Game/Octree.cpp:311-373 | both query recursions append to what was already found exactly the sequence `Layout.Found` |
| `Octree.OctTree.Find` | darkspore_server/source/Game/Octree.cpp:299-309 | a query of any tree reports the reached objects of the given types that share a point with what is queried, once each; of objects in place exactly those below built nodes; it is a permutation of the scan exactly if none of these is hidden below an unbuilt node |
| `Octree.OctTree.Insert` | darkspore_server/source/Game/Octree.cpp:218-297 | the object is put at the end of the one list that `Dest` names, in at most one new node; false is answered, and nothing changed, exactly if there is none |
| `Soundness.DestHolds` | darkspore_server/source/Game/Octree.cpp:218-297 | called on the root or on a node around the box, the object goes there or further down, to the root or a node whose region holds the box |
| `Soundness.DestNone` | darkspore_server/source/Game/Octree.cpp:233-240 | false is answered only for a box outside the root's region |
| `Soundness.DestFits` | darkspore_server/source/Game/Octree.cpp:218-284 | the object goes to a node, or to a new one below a node that is no empty leaf; a node with children takes it only if it fits no octant |
| `Placement.DestIff` | darkspore_server/source/Game/Octree.cpp:218-297 | from a node around the box the object goes to exactly the place that steps to the first octant around it lead to, until a new node, an empty leaf, a region with no extent above 1, or one none of whose octants holds it |
| `Placement.DestClimbs` | darkspore_server/source/Game/Octree.cpp:233-240 | nodes that do not hold the box pass it up, unless they are empty leaves or no extent is above 1 |
| `Placement.DestOutside` | darkspore_server/source/Game/Octree.cpp:219-240 | that ends in such a leaf or region, or with false at the root |
| `Soundness.InsertedKeeps` | darkspore_server/source/Game/Octree.cpp:218-297 | inserting an object that is nowhere keeps the invariant and every node |
| `Soundness.InsertedInPlace` | darkspore_server/source/Game/Octree.cpp:218-297 | ... and puts the object in a region that holds it, or the root |
| `Octree.OctTree.BuildTree` | darkspore_server/source/Game/Octree.cpp:137-211 | ends, and makes of the tree what `Layout.Divided` says |
| `Division.DividedLaw` | darkspore_server/source/Game/Octree.cpp:137-211 | the node keeps the objects that fit no octant; nothing else changes except below corners that receive objects, where every node is new, holds objects of the divided node in its region, and has none left to hand down |
| `Placement.DividedIff` | darkspore_server/source/Game/Octree.cpp:137-211 | where each object of the divided node is afterwards: down the first octants around it while the region has an extent above 1 and holds more than that one object, and nowhere below its node if an extent of it is zero |
| `Division.DividedPlaces` | darkspore_server/source/Game/Octree.cpp:168-210 | every object of the divided node is in its list afterwards or below one of the receiving corners |
| `Division.DividedKeeps` | darkspore_server/source/Game/Octree.cpp:137-211 | a first visit keeps the invariant: no object twice, links, ages and queues in order |
| `Conservation.DividedLoses` | darkspore_server/source/Game/Octree.cpp:201-210 | an object leaves the tree in a division exactly if it was below a corner that receives objects |
| `Conservation.DividedConserves` | darkspore_server/source/Game/Octree.cpp:201-210 | `BuildTree` keeps all objects exactly when nothing was below a corner that receives objects |
| `Octree.OctTree.HandOut` | darkspore_server/source/Game/Octree.cpp:168-194 | the lists are the objects of each octant in order, the indices those of all listed objects |
| `Octree.OctTree.Erase` | darkspore_server/source/Game/Octree.cpp:196-198 | erasing the indices from the last leaves exactly the objects of no octant, in order |
| `Octree.OctTree.Child` | darkspore_server/source/Game/Octree.cpp:457-467 | a new node has its parent, its objects, no children, and the initial lifespans and flags |
| `Octree.OctTree.constructor` | darkspore_server/source/Game/Octree.cpp:13-14 | a new tree meets the invariant |
| `Octree.OctTree.Enqueue` | darkspore_server/source/Game/Octree.cpp:213-216 | the object waits at the end of the queue and the tree is no longer ready; the invariant holds if the object is new to the tree |
| `Octree.OctTree.Refresh` | darkspore_server/source/Game/Octree.cpp:17-33 | the queue joins the list of a node that is then divided, or is inserted object by object: `Layout.Refreshed` |
| `Octree.OctTree.Age` | darkspore_server/source/Game/Octree.cpp:35-50 | the countdown of an empty leaf, its end when objects come back, the doubling of the limit in eight bits |
| `Outcomes.ReadyAges` | darkspore_server/source/Game/Octree.cpp:35-50 | over a whole update the countdown of a node that was ready, in numbers: it starts at the limit or falls by one in an empty leaf, stands still above children, ends with objects and doubles the limit of at most 64, as a signed byte, if it was running |
| `Lifespans.LeafExpires` | darkspore_server/source/Game/Octree.cpp:35-83 | over a run of updates in which nothing that is queued or moved lies in its region, an empty leaf is there for as many updates as its countdown says, two more than its limit if that has still to start, and then gone; with a negative limit it is never dropped |
| `Lifespans.UpdateFate` | darkspore_server/source/Game/Octree.cpp:16-135 | one update of the whole tree drops such a leaf if its countdown is over, and else changes its countdown only |
| `Lifespans.VisitedLimited` | darkspore_server/source/Game/Octree.h:47-48 | every limit is 8, 16, 32, 64, and then, the byte having run over, -128 or 0 |
| `Octree.OctTree.RemoveMarked` | darkspore_server/source/Game/Octree.cpp:53-58 | exactly the unmarked objects of the node remain, in order |
| `Octree.OctTree.TakeMoved` | darkspore_server/source/Game/Octree.cpp:61-69 | the dirty objects of the node are collected in order and are clean |
| `Octree.OctTree.PruneChildren` | darkspore_server/source/Game/Octree.cpp:71-82 | the loop makes of the children what `Layout.Pruned` says |
| `Outcomes.ReadyReaps` | darkspore_server/source/Game/Octree.cpp:71-82 | exactly the children whose countdown is over and that hold nothing die; those that hold something live on |
| `Visits.DeadIsLeaf` | darkspore_server/source/Game/Octree.cpp:73-77 | a child that dies has an empty subtree: pruning never loses an object |
| `Octree.OctTree.Climb` | darkspore_server/source/Game/Octree.cpp:91-101 | the loop finds `Around`; a flat box does not climb |
| `Layout.Around` | darkspore_server/source/Game/Octree.cpp:95-100 | the first node upwards whose region holds the box, or the root |
| `Octree.OctTree.Relocate` | darkspore_server/source/Game/Octree.cpp:90-125 | a moved object leaves its list and is inserted again: `Layout.Relocated` |
| `Placement.RelocatedFrom` | darkspore_server/source/Game/Octree.cpp:90-125 | a moved object is taken off its list and inserted from the first node upwards around its box, or the root; from its own node if an extent of the box is zero |
| `Outcomes.RelocatedOthers` | darkspore_server/source/Game/Octree.cpp:90-125 | every other object keeps its place, and none appears |
| `Outcomes.RelocatedLands` | darkspore_server/source/Game/Octree.cpp:90-125 | the moved object ends at or below the first node upwards whose region holds it, and is dropped only if its box lies outside the root |
| `Outcomes.AllRelocatedLand` | darkspore_server/source/Game/Octree.cpp:90-125 | after the loop over the moved objects each is in the tree or outside the root, and only these changed place |
| `Octree.OctTree.UpdateChildren` | darkspore_server/source/Game/Octree.cpp:84-88 | the children that were there when the loop began are updated in order: `Layout.KidsVisited` |
| `Octree.OctTree.Update` | darkspore_server/source/Game/Octree.cpp:16-135 | makes of tree and dirty flags what `Layout.Visited` says, from any node, with every node above still in place |
| `Visits.VisitedKeeps` | darkspore_server/source/Game/Octree.cpp:16-135 | an update of any node keeps the invariant; outside its subtree nodes keep their age and their lists grow at the end only |
| `Outcomes.VisitedInPlace` | darkspore_server/source/Game/Octree.cpp:90-125 | after an update every object with volume lies in its node's region, unless it is dirty elsewhere |
| `Outcomes.VisitedTidy` | darkspore_server/source/Game/Octree.cpp:53-69 | after an update nothing at the node or below is dirty or marked; such objects elsewhere are where they were |
| `Outcomes.VisitedOnly` | darkspore_server/source/Game/Octree.cpp:16-135 | an update lists no object that was neither in the tree nor queued, and makes none dirty |
| `Outcomes.Landing` | darkspore_server/source/Game/Octree.cpp:90-125 | where a relocated object goes: into a region around it, unless it stays or goes to the root, and below its node if it is still in that node's region |
| `Outcomes.LandingOutside` | darkspore_server/source/Game/Octree.cpp:90-125 | an object outside the root's region stays at its node or is dropped |
| `Settling.VisitedSettled` | darkspore_server/source/Game/Octree.cpp:16-135 | an update of any node while no dirty object there or below strays from its node into another region of the tree: of the unmarked objects that have not left the root's region exactly those that no unbuilt node on the way down replaces are listed there afterwards, moved or not, and elsewhere nothing changes |
| `Settling.VisitedBuilds` | darkspore_server/source/Game/Octree.cpp:16-135 | if each dirty object there is outside the root's region, or in its node's and has volume and fits no octant of it, or is in a leaf that is not divided or visited for the first time, every node there and below is built afterwards |
| `Conservation.VisitedSafe` | darkspore_server/source/Game/Octree.cpp:16-135 | whatever else moves, an object neither dirty nor marked is kept if no unbuilt node above it holds an object for its corner |
| `Updates.CalmUpdate` | darkspore_server/source/Game/Octree.cpp:16-33 | for the whole tree, whatever is queued: if no object of the tree strays, an unmarked object that has not left the root's region is there afterwards exactly if, once the queue has entered, no unbuilt node above it sends objects to its corner, whether or not it moved |
| `Updates.EnteredSettled` | darkspore_server/source/Game/Octree.cpp:27-30 | the queue adds no strays when it enters, whether its objects moved or not |
| `Updates.CalmBuilds` | darkspore_server/source/Game/Octree.cpp:16-33 | every node is built afterwards if every object that moved goes back to its node or out of the tree |
| `Updates.QuietUpdate` | darkspore_server/source/Game/Octree.cpp:16-33 | the same exactness with an empty queue, on the tree alone: such an object at a path remains exactly if no unbuilt node above it sends objects to the corner towards it |
| `Updates.SafeUpdate` | darkspore_server/source/Game/Octree.cpp:16-135 | in any update of the whole tree an object neither dirty nor marked survives under that condition, read widely |
| `Updates.BuiltUpdate` | darkspore_server/source/Game/Octree.cpp:16-135 | with every node built and an empty queue no object that is neither dirty nor marked is lost |
| `Moving.TwoMoveUpdate` | darkspore_server/source/Game/Octree.cpp:90-125 | from a fully built tree with an empty queue, an update with at most two strays, any number of objects having moved within their nodes' regions or out of the root's, keeps every unmarked object that has not left the root's region |
| `MovingRuns.ThreeMoveUpdate` | darkspore_server/source/Game/Octree.cpp:90-125 | with three it need not: the second is in a new node below that of the first, which the third joins, and the first visit of that node replaces it |
| `MovingRuns.ThreeMovesLoseOne` | darkspore_server/source/Game/Octree.cpp:207-209 | the same as a run of `Enqueue`, `SetPosition` and `Update` |
| `OneByOne.VisitedSole` | darkspore_server/source/Game/Octree.cpp:90-125 | if one object at most has moved, only nodes that hold it alone are unbuilt after the visit of a node above it, and none is dirty |
| `OneByOne.GentleStep` | darkspore_server/source/Game/Octree.cpp:16-135 | an update before which one object at most was queued or moved, of a tree with one object at most in an unbuilt node, leaves such a tree and keeps every unmarked object, but for that one if it is outside the root's region |
| `OneByOne.RunKeepsAll` | darkspore_server/source/Game/ObjectManager.cpp:289-290 | so over any run of such updates no object is lost |
| `Updates.FirstUpdate` | darkspore_server/source/Game/Octree.cpp:17-25 | the first update lists only unmarked objects of the queue, and all of them that have not left the root's region, and builds every node if those of them that moved have volume |
| `Updates.EnteredQueue` | darkspore_server/source/Game/Octree.cpp:27-30 | what was queued enters the tree or lies outside its region |
| `Octree.OctTree.UpdateRoot` | darkspore_server/source/Game/ObjectManager.cpp:289-290 | the update of the whole tree: invariant, nothing dirty or marked, everything in place, nothing from nowhere, and what remains is exactly as `Conserves` says |
| `Octree.Space.MovesAreHarmless` | darkspore_server/source/Game/Object.cpp:935-941 | objects may move between updates, if that makes them dirty, without harm to the invariant |
| `Objects.GameObject.SetPosition` | darkspore_server/source/Game/Object.cpp:935-941 | an object is dirty after its box changed |
| `Objects.GameObject.SetExtent` | darkspore_server/source/Game/Object.cpp:978-984 | the extent is stored without sign, and an object with a proper box is dirty after it changed |
| `OctreeRuns.FirstBuildFinds` | darkspore_server/source/Game/ObjectManager.cpp:257-263 | any list of objects with proper boxes, moved ones in the root's region, enqueued in a new tree that is then updated, is found by every query exactly as by a scan of the unmarked ones: those of the types that share a point with it |
| `OctreeRuns.UpdateLosesObject` | darkspore_server/source/Game/Octree.cpp:207-209 | with `Enqueue` and `Update` alone: an object neither marked nor dirty, inside the root's region, is lost |
| `OctreeRuns.FindMissesObject` | darkspore_server/source/Game/Octree.cpp:311-314 | with `Enqueue`, a move and `Update` alone: a query misses an object of the tree that it accepts |
| `Transform.BoundingBox.Transform` | darkspore_server/source/Game/Collision.cpp:71-94 | the box becomes the box around the images of its corners |
| `Transform.TransformIsSound` | darkspore_server/source/Game/Collision.cpp:71-94 | every point of the old box maps into the new box |
| `Transform.TransformIsTight` | darkspore_server/source/Game/Collision.cpp:71-94 | each of the six bounds is attained by the image of a corner |
| `Transform.TransformIsHull` | darkspore_server/source/Game/Collision.cpp:71-94 | a box contains the new box exactly when it covers the whole image of the old one |
| `Segment.ClosestIsOptimal` | darkspore_server/source/Game/LuaFunctions.cpp:196-244 | the returned point is on the segment, every other point of it is farther away, and `DistanceToLine` is the distance to that point, also for equal ends |
| `Segment.LeastOnSegment` | darkspore_server/source/Game/LuaFunctions.cpp:231-243 | the parameter chosen is the only minimum of the squared distance over the segment |
| `TdfInteger.RoundTripIff` | darkspore_server/source/Core/IO/DataBuffer.cpp:77-112 | decoding what was encoded gives the value and stops behind it exactly for values below 2^55 |
| `TdfInteger.FiveBytes` | darkspore_server/source/Blaze/Packet.cpp:146-176 | a 32-bit value takes at most five bytes, is decoded with shifts of at most 27, and comes back |
| `TdfInteger.PrefixFree` | darkspore_server/source/Blaze/Packet.cpp:146-161 | no encoding is a proper prefix of another |
| `TdfInteger.MinimalIff` | darkspore_server/source/Blaze/Packet.cpp:146-176 | no shorter byte string decodes to the value, exactly outside 64..127 |
| `TdfInteger.Encode` | darkspore_server/source/Blaze/Packet.cpp:146-161 | exactly the last byte has its top bit clear |
| `TdfInteger.EncodeAt` | darkspore_server/source/Blaze/Packet.cpp:146-161 | the bytes in numbers: the low six bits, then seven at a time, the top bit set in all but the last |
| `TdfBuffer.DataBuffer.EncodeTdfInteger` | darkspore_server/source/Core/IO/DataBuffer.cpp:77-91 | the loop writes that encoding at the cursor |
| `TdfBuffer.DataBuffer.DecodeTdfInteger` | darkspore_server/source/Core/IO/DataBuffer.cpp:93-112 | the loop returns the decoded value and leaves the cursor behind it |
| `TdfBuffer.DataBuffer.Write` | darkspore_server/source/Core/IO/DataBuffer.cpp:64-75 | bytes are placed at the cursor, over what was there |
| `TdfBuffer.SpliceAt` | darkspore_server/source/Core/IO/DataBuffer.cpp:64-75 | ... byte by byte: what lies before and behind is kept, and the buffer grows only past its end |
| `TdfBuffer.DataBuffer.Read` | darkspore_server/source/Core/IO/DataBuffer.cpp:53-62 | bytes are taken from the cursor, or nothing if they do not suffice |
| `TdfLabel.Compress` | darkspore_server/source/Blaze/TDF.cpp:36-42 | the loop computes the packed, byte-swapped label |
| `TdfLabel.Decompress` | darkspore_server/source/Blaze/TDF.cpp:44-56 | the loop computes the label of a code |
| `TdfLabel.Decompressed` | darkspore_server/source/Blaze/TDF.cpp:36-56 | what comes back is the first four characters, brought into 0x40..0x5F |
| `TdfLabel.RoundTripIff` | darkspore_server/source/Blaze/TDF.cpp:36-56 | a label survives exactly if it has at most four characters, all in 0x40..0x5F |
| `TdfLabel.HeaderBits` | darkspore_server/source/Blaze/TDF.cpp:36-74 | a header in bits: six for each of the first four characters, the first in the highest, then the type |
| `TdfLabel.LabelBits` | darkspore_server/source/Blaze/TDF.cpp:44-66 | the label read from any four bytes: a letter for each group of six bits that is not zero |
| `TdfLabel.HeaderRoundTrip` | darkspore_server/source/Blaze/TDF.cpp:58-74 | a header gives back its type, and its label exactly if valid; its first byte is 0x80 or more exactly for labels that are not empty |
| `Tdf.ValueRoundTrip` | darkspore_server/source/Blaze/TDF.cpp:123-416 | for every well-formed value, parsing its bytes consumes exactly them and gives the value, its texts up to their first NUL and its blobs as strings, through structs, unions, lists, maps, integer lists and ids |
| `Tdf.SameIff` | darkspore_server/source/Blaze/TDF.cpp:231-241 | that is the value itself exactly if it holds no blob and no NUL in a text |
| `Tdf.DocumentRoundTrip` | darkspore_server/source/Blaze/TDF.cpp:116-121 | for every well-formed document the same |
| `Tdf.FieldRoundTrip` | darkspore_server/source/Blaze/TDF.cpp:140-220 | a header and its payload are read as that label and the value as read |
| `Tdf.MembersRoundTrip` | darkspore_server/source/Blaze/TDF.cpp:243-255 | the members of a struct are read in order up to the zero byte |
| `Tdf.ItemsRoundTrip` | darkspore_server/source/Blaze/TDF.cpp:298-371 | the elements of lists and maps are read in order |
| `Tdf.StructsFollow` | darkspore_server/source/Blaze/TDF.cpp:287-296 | a list of structs is never taken for a stub list |
| `Tdf.StringIsSent` | darkspore_server/source/Blaze/TDF.cpp:659-666 | a text is sent as its length, as many bytes as that says, the last of them zero and the only zero, before it the text up to its first NUL |
| `TdfCodec.WriteString` | darkspore_server/source/Blaze/TDF.cpp:659-666 | the writer puts exactly that on the buffer |
| `TdfCodec.WriteKey` | darkspore_server/source/Blaze/TDF.cpp:743-748 | the header of a field, or the key of a map entry; a textual key is sent like a text |
| `TdfCodec.WriteValue` | darkspore_server/source/Blaze/TDF.cpp:644-769 | the recursive writer appends exactly the bytes of the value; a text as above, a blob without the zero |
| `TdfWire.NumberBytes` | darkspore_server/source/Blaze/Packet.cpp:146-161 | numbers in plain bytes |
| `TdfWire.LeafBytes` | darkspore_server/source/Blaze/TDF.cpp:649-763 | texts, blobs and ids in plain bytes |
| `TdfWire.ContainerBytes` | darkspore_server/source/Blaze/TDF.cpp:679-749 | structs, unions, lists and integer lists in plain bytes |
| `TdfWire.StructListBytes` | darkspore_server/source/Blaze/TDF.cpp:710-731 | lists of structs, stub lists with their marker |
| `TdfWire.MapBytes` | darkspore_server/source/Blaze/TDF.cpp:733-749 | maps with integer and with textual keys |
| `TdfWire.KindBytes` | darkspore_server/source/Blaze/TDF.cpp:644-646 | the type byte of each kind |
| `TdfWire.ListCounts` | darkspore_server/source/Blaze/TDF.cpp:679-731 | counts are cut to a byte, and of a longer list only so many elements are sent |
| `TdfWire.IntegerListCounts` | darkspore_server/source/Blaze/TDF.cpp:679-688 | the same for integer lists |
| `TdfWire.MapCounts` | darkspore_server/source/Blaze/TDF.cpp:733-749 | ... but all entries of a map |
| `TdfWire.StubCounts` | darkspore_server/source/Blaze/TDF.cpp:719-725 | ... all elements of a stub list |
| `TdfWire.UnionCounts` | darkspore_server/source/Blaze/TDF.cpp:691-700 | ... and all members of a union, none if its address is unset |
| `TdfWire.LastWins` | darkspore_server/source/Blaze/TDF.cpp:124-138 | whatever fields a document has, of those with the same label the parser keeps the last, and every label once |
| `TdfWire.UnknownIsSkipped` | darkspore_server/source/Blaze/TDF.cpp:211-218 | a header of an unknown type is passed over, with no payload |
| `TdfWire.UnknownMemberIsSkipped` | darkspore_server/source/Blaze/TDF.cpp:249-254 | the same inside a struct or stub list |
| `TdfWire.UnionOfUnknown` | darkspore_server/source/Blaze/TDF.cpp:257-271 | a union whose member is of an unknown type has none |
| `TdfWire.HeaderCutShort` | darkspore_server/source/Blaze/TDF.cpp:116-147 | a document that ends within a header cannot be read; one that ends behind a header lacks that field only |
| `TdfWire.TextIff` | darkspore_server/source/Blaze/TDF.cpp:90-102 | a text is read exactly if its length is above zero and so many bytes are there; the last is not looked at |
| `TdfWire.UnknownListIff` | darkspore_server/source/Blaze/TDF.cpp:298-321 | exactly lists of other types than integers, texts and structs are read as empty, whatever their count |
| `TdfWire.UnknownMap` | darkspore_server/source/Blaze/TDF.cpp:331-371 | a map with entries whose keys are neither integers nor texts, or whose values are none of the three, is not read |
| `TdfCodec.WriteItems` | darkspore_server/source/Blaze/TDF.cpp:532-536 | the loops over members and elements append their bytes in order |
| `TdfCodec.Parser.ReadValue` | darkspore_server/source/Blaze/TDF.cpp:151-219 | the parser method computes what the reading function says, with the cursor behind it |
| `TdfCodec.Parser.ReadMembers` | darkspore_server/source/Blaze/TDF.cpp:249-254 | the loop to the zero byte, for structs and stub lists |
| `TdfCodec.Parser.ReadItems` | darkspore_server/source/Blaze/TDF.cpp:298-321 | the counted loops of lists, maps and integer lists |
| `TdfCodec.Parser.Read` | darkspore_server/source/Blaze/TDF.cpp:116-121 | the document is rebuilt from the whole buffer |
| `TdfLimits.ReadValueGives` | darkspore_server/source/Blaze/TDF.cpp:123-416 | whatever the bytes, what is read is at every depth a value of certain forms: no blob, numbers below 2^55, structs with valid, distinct, nonempty labels, lists and maps of fewer than 256 elements of a known kind, unions with one member at most |
| `TdfLimits.LeafReturnsIff` | darkspore_server/source/Blaze/TDF.cpp:649-763 | integers, strings and ids come back exactly if they are below 2^55 and free of NUL, blobs never |
| `TdfLimits.BlobBecomesString` | darkspore_server/source/Blaze/TDF.cpp:231-241 | a blob is read as the string of its bytes, which is written as another type and longer |
| `TdfLimits.WholeReturnsIff` | darkspore_server/source/Blaze/TDF.cpp:644-769 | a value without stub lists and without unions that have an address but no member, whatever else is wrong with it at whatever depth, comes back exactly if it is well-formed and holds no blob and no NUL |
| `TdfLimits.LongNeverReturns` | darkspore_server/source/Blaze/TDF.cpp:679-749 | lists, of any kind of element, and maps of 256 elements or more never come back |
| `TdfLimits.UnionReturnsIff` | darkspore_server/source/Blaze/TDF.cpp:691-700 | a union of plain well-formed values comes back exactly if it has one member under a valid label, or none when its address is unset |
| `TdfLimits.OpenNeverReturns` | darkspore_server/source/Blaze/TDF.cpp:257-271 | a union with an address but no member never comes back: it swallows what follows |
| `TdfLimits.DocumentReturnsIff` | darkspore_server/source/Blaze/TDF.cpp:124-138 | a document of such values, whatever else is wrong with them, comes back exactly if it is well-formed, with valid and distinct labels, and holds no blob and no NUL |
| `TdfLimits.StructReturnsIff` | darkspore_server/source/Blaze/TDF.cpp:702-708 | a struct of plain well-formed values comes back exactly if its labels are valid, distinct and not empty |
| `TdfLimits.ListReturnsIff` | darkspore_server/source/Blaze/TDF.cpp:710-731 | a list of plain well-formed values comes back exactly if they are all of its kind, which is one the reader knows, and fewer than 256 |
| `TdfLimits.MapReturnsIff` | darkspore_server/source/Blaze/TDF.cpp:733-749 | a map the same, with keys of its key kind |
| `TdfLimits.StubNeverReturns` | darkspore_server/source/Blaze/TDF.cpp:719-729 | a stub list of structs never comes back, whatever they hold short of further ones: the writer omits its headers and its end |
| `TdfLimits.ContainerReturnsIff` | darkspore_server/source/Blaze/TDF.cpp:644-769 | all containers together: with plain well-formed elements the round trip holds exactly for the well-formed ones |
| `TdfLimits.ReturnsIff` | darkspore_server/source/Blaze/TDF.cpp:644-769 | every value, itself of any form, whose elements hold no stub list or memberless union comes back exactly if it is well-formed and holds no blob and no NUL |
| `TdfBuilder.StepKeepsValid` | darkspore_server/source/Blaze/TDF.cpp:419-529 | every put, push and pop keeps all stacked containers in the tree, each inside the one before, and pop never empties the stack |
| `TdfBuilder.StepSpares` | darkspore_server/source/Blaze/TDF.cpp:613-627 | no call appends to a container around the open one, or changes what is not on the way to it, so what the stacked pointers point to is not moved |
| `TdfBuilder.NestedCallsBuild` | darkspore_server/source/Blaze/TDF.cpp:419-529 | properly nested calls build exactly the tree they denote, in call order, and leave only the document on the stack |
| `TdfBuilder.RunAdds` | darkspore_server/source/Blaze/TDF.cpp:419-529 | below any open container nested calls add, at every depth, one element for each call in call order: under its name in structs and unions, under none in lists, in maps under the name or the number it stands for, with the value or the kind of container given |
| `TdfBuilder.NamesComeBack` | darkspore_server/source/Blaze/TDF.cpp:419-536 | the fields of a new packet come back from its bytes under the names they were given, in call order, with the values as read, if the names are valid and distinct and the values well-formed |
| `TdfBuilder.StepGrows` | darkspore_server/source/Blaze/TDF.cpp:613-627 | one call adds one element at the end of the open container, under such a key |
| `TdfBuilder.RunNested` | darkspore_server/source/Blaze/TDF.cpp:419-529 | the same below any open container |
| `TdfBuilder.BuiltIsRead` | darkspore_server/source/Blaze/TDF.cpp:419-536 | what the parser finds in the bytes of the document that nested calls build is that document, texts cut and blobs as strings, if it is well-formed |
| `TdfBuilder.TextIsNumber` | darkspore_server/source/Blaze/TDF.cpp:368-370 | the name an integer key gets when a map is read is written as the same key |
| `TdfBuilder.StandsIff` | darkspore_server/source/Blaze/TDF.cpp:650-653 | the number a name stands for is the value by places of the digits it begins with, hexadecimal behind 0x, octal behind another zero |
| `TdfBuilder.DigitsAre` | darkspore_server/source/Blaze/TDF.cpp:650-653 | the digits are those of ASCII and the letters of either case |
| `TdfBuilder.HexNames` | darkspore_server/source/Blaze/TDF.cpp:650-653 | two hexadecimal names |
| `TdfBuilder.OctalNames` | darkspore_server/source/Blaze/TDF.cpp:650-653 | a name with a leading zero is taken as octal |
| `TdfBuilder.Packet.AddMember` | darkspore_server/source/Blaze/TDF.cpp:613-627 | a value becomes the last element of the open container, under its name, without one or under a number as the container asks, and nothing else changes |
| `TdfBuilder.Packet.PushContainer` | darkspore_server/source/Blaze/TDF.cpp:475-523 | an empty container is added and opened |
| `TdfBuilder.Packet.PopContainer` | darkspore_server/source/Blaze/TDF.cpp:525-529 | the open container is closed, unless it is the document |
| `Attributes.Attributes.SetValue` | darkspore_server/source/Game/Attributes.cpp:29-50 | acts as a plain map and keeps the list sorted and free of zeros, except for the one call that erases `end()`; that call becomes possible exactly by a zero write to an absent attribute not on the erased list |
| `Attributes.Attributes.GetValue` | darkspore_server/source/Game/Attributes.cpp:12-21 | the value of the map, zero if absent |
| `Attributes.Attributes.WriteReflection` | darkspore_server/source/Game/Attributes.cpp:108-123 | the stream holds exactly the delta |
| `Attributes.Attributes.DeltaIs` | darkspore_server/source/Game/Attributes.cpp:108-123 | the fields of the delta: what is marked as changed and present, with its value, what was erased, as zero, and at the end the damage under 111 and 112 |
| `Attributes.StreamAt` | darkspore_server/source/RakNet/Types.h:305-345 | token by token: each id before its value, 255 at the end |
| `Attributes.Attributes.ResetReflectionBits` | darkspore_server/source/Game/Attributes.cpp:125-128 | the replicas are in step with the current attributes |
| `Attributes.Attributes.DeltaIsDistinct` | darkspore_server/source/Game/Attributes.cpp:108-123 | no field is written twice, and none is the end marker |
| `Attributes.Attributes.DeltaSyncs` | darkspore_server/source/Game/Attributes.cpp:108-123 | a replica in step at the last reset that applies the delta has the current attributes and weapon damage |
| `Attributes.Attributes.DeltaIsRead` | darkspore_server/source/RakNet/Types.h:305-420 | a reader of the stream finds exactly those fields and stops where the delta ends |
| `Attributes.StreamRoundTrip` | darkspore_server/source/RakNet/Types.h:325-345 | a field list ended by 0xFF is read back whatever follows it |
| `Effects.EffectList.Add` | darkspore_server/source/Game/Object.cpp:41-47 | a fresh index for the effect, or 0 exactly when all 255 are in use |
| `Effects.EffectList.Remove` | darkspore_server/source/Game/Object.cpp:49-67 | the effect's index becomes the next to be handed out; 0 if it has none |
| `Effects.EffectList.RemoveByIndex` | darkspore_server/source/Game/Object.cpp:69-85 | the index is free and no effect has it |
| `Effects.EffectList.GetOpenIndex` | darkspore_server/source/Game/Object.cpp:87-102 | used and open indexes stay 1 to the largest number ever in use |
| `Effects.SwapPopRemoves` | darkspore_server/source/Game/Object.cpp:58-59 | swapping with the last and popping removes exactly that index |
| `ObjectIds.ObjectManager.Create` | darkspore_server/source/Game/ObjectManager.cpp:158-181 | an object with an id no live object has; none exactly when all 2^32 - 1 ids are live |
| `ObjectIds.ObjectManager.GetNextObjectId` | darkspore_server/source/Game/ObjectManager.cpp:324-340 | live and recycled ids stay disjoint and together are those issued, also when the counter runs over |
| `ObjectIds.ObjectManager.MarkForDeletion` | darkspore_server/source/Game/ObjectManager.cpp:318-322 | an object waits for deletion once, however often it is marked |
| `ObjectIds.ObjectManager.DeleteMarked` | darkspore_server/source/Game/ObjectManager.cpp:297-315 | exactly the marked objects are dropped, each id is returned once |
| `Trigger.TriggerVolume.OnTick` | darkspore_server/source/Game/ObjectManager.cpp:44-65 | the pass computes the new states and callbacks of `Tick`, and the history of every object stays in order |
| `Trigger.TriggerVolume.AddObject` | darkspore_server/source/Game/ObjectManager.cpp:81-90 | a new object starts outside; the owner and known objects are ignored |
| `Trigger.TickKeepsOrder` | darkspore_server/source/Game/ObjectManager.cpp:51-62 | through any pass the callbacks of an object stay a prefix of (Enter Stay* Exit)* |
| `Trigger.ExitBetween` | darkspore_server/source/Game/ObjectManager.cpp:51-62 | an object that enters twice has left in between |
| `Trigger.EnteredBefore` | darkspore_server/source/Game/ObjectManager.cpp:51-62 | stay and exit only come for an object that entered and has not left since |
| `Trigger.TickIs` | darkspore_server/source/Game/ObjectManager.cpp:51-62 | which callback each entry causes and what it remembers: visited ones enter, stay or exit as they were and are inside; those passed over cause none |
| `Trigger.EventsRise` | darkspore_server/source/Game/ObjectManager.cpp:51-62 | at most one callback for each object, in their order |
| `Trigger.FiresIff` | darkspore_server/source/Game/ObjectManager.cpp:51-62 | an object causes a callback exactly if its entry is visited, that is, not skipped behind an erased one, and it had entered or is inside |
| `Trigger.StaysIff` | darkspore_server/source/Game/ObjectManager.cpp:51-62 | exactly the entries that are visited and leave are erased |
| `Trigger.OverrunIff` | darkspore_server/source/Game/ObjectManager.cpp:59-61 | the loop steps past the end exactly when the last entry is visited and erased |
| `Catalysts.LootRoundTripIff` | darkspore_server/source/Game/Object.cpp:249-254 | a catalyst that goes through a loot object comes back equal |
| `Catalysts.EveryTypeHasColor` | darkspore_server/source/Game/Catalyst.cpp:97-144 | exactly the 35 types, and wild catalysts, have a colour |
| `Catalysts.BonusIff` | darkspore_server/source/Game/Player.cpp:515-537 | a line has its bonus exactly if one colour fits it, or its pivot is prismatic and the two others differ |
| `Catalysts.BonusByType` | darkspore_server/source/Game/Catalyst.cpp:97-144 | three catalysts that are not wild make a bonus exactly if their types share one of the four colours |
| `Catalysts.LineIs` | darkspore_server/source/Game/Player.cpp:515-537 | the slots of the eight lines: rows, columns and diagonals, the centre as pivot of the diagonals |
| `Catalysts.BagSwap` | darkspore_server/source/RakNet/Server.cpp:1077-1081 | exchanging two slots conserves the catalysts |
| `Catalysts.Player.GetOpenCatalystSlot` | darkspore_server/source/Game/Player.cpp:356-363 | the first empty slot, or none exactly when the grid is full |
| `Catalysts.Player.GetCatalyst` | darkspore_server/source/Game/Player.cpp:365-370 | the catalyst of a slot; past the grid an empty one, except just past it, where memory beyond the array is read |
| `Catalysts.Player.SetCatalyst` | darkspore_server/source/Game/Player.cpp:372-382 | one slot changes and the bonuses are those of the new grid |
| `Catalysts.Player.UpdateCatalystBonuses` | darkspore_server/source/Game/Player.cpp:515-537 | the eight bonuses are those of the eight lines |
| `Catalysts.Instance.DropCatalyst` | darkspore_server/source/Game/Instance.cpp:765-799 | the catalyst leaves its slot and lies on the ground, equal; none is lost or made, but for slot 9 |
| `Catalysts.Instance.PickupCatalyst` | darkspore_server/source/Game/Instance.cpp:1087-1116 | the catalyst goes to the first empty slot and its object is marked; none is lost or made |
| `Catalysts.Instance.InteractWithObject` | darkspore_server/source/Game/Instance.cpp:541-578 | a marked object is left alone; any other counts the use; loot is marked, a crystal marked and its catalyst put into the first empty slot if there is one, anything else leaves an orb and a catalyst; conservation holds exactly if `Conserves` does |
| `Catalysts.Instance.DragCatalyst` | darkspore_server/source/RakNet/Server.cpp:1026-1091 | type 2 exchanges the two slots and changes nothing else, type 0 empties the slot and puts its catalyst on the ground, other types and empty slots do nothing; the catalysts are conserved exactly if `Conserves` holds |
| `Catalysts.StepIs` | darkspore_server/source/RakNet/Server.cpp:1026-1091 | what every message makes of grid, ground and deployment, slot by slot and object by object |
| `Catalysts.DragBackIff` | darkspore_server/source/RakNet/Server.cpp:1077-1081 | moving a catalyst and moving it back restores everything, exactly unless only the slot it is moved to was filled |
| `Catalysts.DragConservesIff` | darkspore_server/source/RakNet/Server.cpp:1053-1091 | conserved exactly unless a catalyst moves past the grid or memory beyond it is taken for another one; within the grid always |
| `Catalysts.StepConservesIff` | darkspore_server/source/RakNet/Server.cpp:1053-1091 | the same for every message: drags, uses of objects and deployment |
| `Catalysts.RunConserves` | darkspore_server/source/Game/Instance.cpp:765-799 | over any run of messages that each conserve when they come, grid and ground together stay the same |
| `Catalysts.ReceiptIff` | darkspore_server/source/Game/Instance.cpp:1087-1116 | the receipts counted below are exactly the uses of an object that change the grid |
| `Catalysts.ReceivedOnce` | darkspore_server/source/Game/Instance.cpp:1087-1116 | over any run whatever every object on the ground is picked up at most once |
| `Catalysts.DroppedStays` | darkspore_server/source/Game/Instance.cpp:765-799 | a dropped catalyst lies there equal over any run |

## Left out

- Floating point: `float` is `real`; distances are compared by their squares, so `glm::length` is not rounded.
- Octree.OctTree.Update: without `GetTriggerInteractions`, the end of the root's update, which reads the tree and calls `AddObject`.
- Flat boxes (one extent zero): they stay where they are and are not climbed, so `InPlace` and the exactness of queries do not speak about them.
- Search.QueryIsScan: requires every object to lie in its node's region, which holds after an update when nothing has moved since and no box is flat; `FoundLists` is what queries report in general.
- Conservation.VisitedSafe: sufficient only, and about clean objects. While objects stray, what a node replaces depends on what was inserted below it during that update; `Layout.Visited` is exact.
- Updates.SafeUpdate: the same.
- Updates.CalmUpdate: an object that moved out of the root's region stays at its node or is dropped (`LandingOutside`); which of the two depends on whether a node on its way up has children by then, and is not said.
- Octree.OctTree.UpdateRoot: of updates in which objects stray, it says exactly what remains only for fully built trees with an empty queue and at most two strays.
- Raw pointers: freed children and the pointers on the builder's stack are paths here; a replaced child is not freed in the source, only unreachable.
- TdfBuffer.DataBuffer.Read: fails past the bytes that were written. The source compares with the capacity of its vector: up to there it reads bytes that nobody wrote, past it it leaves a variable unset.
- A list whose two head bytes end the buffer is not a stub list.
- rapidjson's layout (`_Type`, `_Content` and the like) and its assertions: elements that do not match their list's type, maps with unknown kinds that are not empty, and names of integer maps that do not begin with a digit are not modelled; nor is that a union is written from `_Content`, where the parser does not put its member.
- The bit-level or of disjoint bits is written as addition, in labels and integers.
- `std::sort` after `push_back` is one insertion at the right place.
- TdfLimits.ReturnsIff: says nothing about values that hold a stub list, or a union with an address but no member, further down, nor about stub lists of anything but structs without keys (and nothing about strings of exactly 2^55 - 1 bytes inside containers). Reading those takes bytes of what follows, after which other fields can take the place of what was read wrongly.
- Attributes.Attributes.DeltaIsRead: reads typed tokens; the bytes of field ids and floats and the bit offset of the stream are not modelled.
- Attributes.StreamRoundTrip: the same tokens.
- Catalysts.Instance.DropCatalyst: the object on the ground is always created and always a crystal; creation failing for want of ids, and `hash_id` beyond being non-zero, are not modelled.
- Catalysts.Instance.InteractWithObject: of loot objects only the mark is modelled, not what they hold; messages to clients are not.
- The raw form `Attributes::WriteTo`, which writes raw offsets and reads no delta; `SetValue` on attributes clients do not know does nothing, as in the source.
- Several object managers or threads sharing the id counter; callbacks that change the trigger they come from.
- Sockets, TLS, RakNet, HTTP, Lua, XML and JSON loading, locomotion, combat.
