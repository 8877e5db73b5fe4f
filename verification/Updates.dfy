/** The update of a whole tree. */
module Updates {
  import opened Conservation
  import opened Division
  import opened Geometry
  import opened Layout
  import opened Moving
  import opened Objects
  import opened Outcomes
  import opened Sequences
  import opened Settling
  import opened Soundness
  import opened Visits
  import opened Wrappers

  /** The invariant between updates; a root that was not visited before has no children. */
  ghost predicate Steady(root: Box, t: Spots) {
    Sound(root, t) && (!t[[]].built ==> Leaf(t, []))
  }

  /** An object that is new to the tree may wait in the root's queue. */
  lemma WaitsSteady(root: Box, t: Spots, o: GameObject)
    requires Steady(root, t) && o !in All(t) && o !in t[[]].queue
    ensures Steady(root, t[[] := t[[]].(queue := t[[]].queue + [o], ready := false)])
  {
  }

  lemma SameAll(t: Spots, u: Spots, p: Path)
    requires p in t && p in u && u == t[p := u[p]] && u[p].objects == t[p].objects
    ensures All(u) == All(t)
    ensures forall q :: q in u ==> q in t && u[q].objects == t[q].objects
  {
    forall o | o in All(t)
      ensures o in All(u)
    {
      var q :| q in t && o in t[q].objects;
      assert q in u && o in u[q].objects;
    }
  }

  /** The tree with the root's queue inserted, or joined to its list if it is not built yet. */
  ghost function Entered(f: Facts, t: Spots): Spots {
    var s := At(t, []);
    if s.built then AllInserted(f, t[[] := s.(queue := [])], [], s.queue, 0)
    else t[[] := s.(objects := s.objects + s.queue, queue := [])]
  }

  lemma EnteredKeeps(f: Facts, t: Spots)
    requires Sound(f.root, t)
    ensures var e := Entered(f, t);
            && Sound(f.root, e) && [] in e && e[[]].queue == []
            && e[[]].built == t[[]].built && e[[]].ready == t[[]].ready
            && (forall q, o :: q in t && o in t[q].objects ==> q in e && o in e[q].objects)
            && Only(t, e, Elems(t[[]].queue))
  {
    hide Unique, Lives, Queued, AllInserted, Only;
    ReadyMeans(f.root, t, []);
    var s := t[[]];
    if s.built {
      var v := t[[] := s.(queue := [])];
      if s.ready {
        assert v == t;
      } else {
        QueueTaken(f.root, t, []);
      }
      EnteredLater(f, t, v);
    } else {
      QueueJoined(f.root, t, []);
      JoinedOnly(t, []);
    }
  }

  lemma EnteredLater(f: Facts, t: Spots, v: Spots)
    requires Sound(f.root, t) && t[[]].built && v == t[[] := t[[]].(queue := [])] && Sound(f.root, v)
    requires t[[]].ready ==> t[[]].queue == []
    ensures var e := AllInserted(f, v, [], t[[]].queue, 0);
            && Sound(f.root, e) && [] in e && e[[]].queue == []
            && e[[]].built == t[[]].built && e[[]].ready == t[[]].ready
            && (forall q, o :: q in t && o in t[q].objects ==> q in e && o in e[q].objects)
            && Only(t, e, Elems(t[[]].queue))
  {
    hide Unique, Lives, Queued, AllInserted, Only, Nowhere;
    if !t[[]].ready { QueueTaken(f.root, t, []); }
    AllInsertedKeeps(f, v, [], t[[]].queue, 0);
    AllInsertedAdds(f, v, [], t[[]].queue, 0);
    AllInsertedOnly(f, v, [], t[[]].queue, 0);
    ShrunkOnly(t, v);
    OnlyJoins(t, v, AllInserted(f, v, [], t[[]].queue, 0), {}, Elems(t[[]].queue), Elems(t[[]].queue));
  }

  /** Insertion only adds, and refuses only a box outside the root's region. */
  lemma {:induction false} AllInsertedAdds(f: Facts, t: Spots, p: Path, list: seq<GameObject>, i: nat)
    ensures var u := AllInserted(f, t, p, list, i);
            && (forall q, o :: q in t && o in t[q].objects ==> q in u && o in u[q].objects)
            && (forall j :: i <= j < |list| ==> list[j] in All(u) || !f.root.Contains(f.BoxOf(list[j])))
    decreases |list| - i
  {
    hide Dest, Box.Contains;
    if i < |list| {
      var v := Inserted(f, t, p, list[i]);
      var d := Dest(f.root, t, p, f.BoxOf(list[i]));
      AllInsertedAdds(f, v, p, list, i + 1);
      if d == None {
        DestNone(f.root, t, p, f.BoxOf(list[i]));
      } else {
        assert list[i] in v[d.value].objects;
      }
    }
  }

  /** What was queued is in the tree then, or outside its region. */
  lemma EnteredQueue(f: Facts, t: Spots)
    requires [] in t
    ensures forall o :: o in t[[]].queue ==> o in All(Entered(f, t)) || (t[[]].built && !f.root.Contains(f.BoxOf(o)))
  {
    hide AllInserted, Box.Contains;
    var s := t[[]];
    if s.built {
      AllInsertedAdds(f, t[[] := s.(queue := [])], [], s.queue, 0);
    } else {
      AllOf(Entered(f, t), []);
    }
  }

  /** An update begins with the queue. */
  lemma VisitedEntered(f: Facts, t: Tree)
    requires Sound(f.root, t.spots) && !t.spots[[]].ready
    ensures Visited(f, t, []) == Visited(f, Tree(Entered(f, t.spots), t.dirty), [])
  {
    hide Sound, Divided, Aged, Swept, Pruned, KidsVisited, AllRelocated;
    EnteredKeeps(f, t.spots);
    var e := Entered(f, t.spots);
    var s := e[[]];
    assert s.objects + s.queue == s.objects;
    assert e[[] := s.(objects := s.objects + s.queue, queue := [])] == e;
    assert e[[] := s.(queue := [])] == e;
    assert Refreshed(f, t.spots, []) == Refreshed(f, e, []);
  }

  /** The same, whether or not the tree was ready. */
  lemma StartsEntered(f: Facts, t: Tree)
    requires Sound(f.root, t.spots)
    ensures Visited(f, t, []) == Visited(f, Tree(Entered(f, t.spots), t.dirty), [])
  {
    hide Unique, Lives, Queued, Visited;
    if t.spots[[]].ready {
      ReadyMeans(f.root, t.spots, []);
      assert t.spots[[] := t.spots[[]].(queue := [])] == t.spots;
    } else {
      VisitedEntered(f, t);
    }
  }

  /** The invariant survives an update, after which the queue is empty. */
  lemma UpdateKeeps(f: Facts, t: Tree)
    requires Steady(f.root, t.spots)
    ensures var u := Visited(f, t, []).spots; Steady(f.root, u) && u[[]].built && u[[]].ready && u[[]].queue == []
  {
    VisitedKeeps(f, t, []);
  }

  /** Afterwards no listed object is dirty or marked. */
  lemma UpdateCleans(f: Facts, t: Tree)
    requires Sound(f.root, t.spots)
    ensures var u := Visited(f, t, []);
            forall o :: o in All(u.spots) ==> o !in u.dirty && o !in f.marked
  {
    hide Unique, Lives, Queued, Visited;
    var u := Visited(f, t, []);
    VisitedTidy(f, t, []);
    forall o | o in All(u.spots)
      ensures !Bad(f, u, o)
    {
      var q :| q in u.spots && o in u.spots[q].objects;
      assert [] <= q;
    }
  }

  /** ... and all with volume are in place. */
  lemma UpdatePlaces(f: Facts, t: Tree)
    requires Sound(f.root, t.spots) && InPlace(f, t.spots, t.dirty)
    ensures InPlace(f, Visited(f, t, []).spots, {})
  {
    hide Unique, Lives, Queued, Visited, Box.Contains, Box.IsPoint;
    var u := Visited(f, t, []);
    UpdateCleans(f, t);
    Looser(f, t.spots, t.dirty, t.dirty + {});
    VisitedInPlace(f, t, [], {});
    forall q, o | q in u.spots && o in u.spots[q].objects
      ensures o in All(u.spots)
    {}
  }

  /** Nothing is listed that was not listed or queued. */
  lemma UpdateAddsNone(f: Facts, t: Tree)
    requires Sound(f.root, t.spots)
    ensures var u := Visited(f, t, []);
            All(u.spots) <= All(t.spots) + Elems(t.spots[[]].queue) && u.dirty <= t.dirty
  {
    hide Unique, Lives, Queued, Visited;
    VisitedOnly(f, t, []);
  }

  lemma KeptListed(f: Facts, t: Spots, o: GameObject, wide: bool)
    ensures Kept(f, t, [], o, wide) ==> o in All(t)
    ensures (forall q :: q in t ==> t[q].built) && Branched(f.root, t) && o in All(t) ==> Kept(f, t, [], o, wide)
  {
    hide Aims, Sends;
    if (forall q :: q in t ==> t[q].built) && Branched(f.root, t) && o in All(t) {
      var q :| q in t && o in t[q].objects;
      forall i | 0 <= i < |q|
        ensures q[..i] in t
      {
        PrefixIn(f.root, t, q, i);
      }
      assert Spared(f, t, [], q, wide);
    }
  }

  lemma {:induction false} AllInsertedInside(f: Facts, t: Spots, list: seq<GameObject>, i: nat, d: set<GameObject>)
    requires Inside(f, t, [], d)
    ensures Inside(f, AllInserted(f, t, [], list, i), [], d)
    decreases |list| - i
  {
    hide Dest, Box.Contains;
    if i < |list| {
      var dest := Dest(f.root, t, [], f.BoxOf(list[i]));
      if dest.Some? { DestHolds(f.root, t, [], f.BoxOf(list[i])); }
      AllInsertedInside(f, Inserted(f, t, [], list[i]), list, i + 1, d);
    }
  }

  /** If none strays in the tree, none does once the queue has entered. */
  lemma EnteredSettled(f: Facts, t: Tree)
    requires [] in t.spots && Strays(f, t) == {}
    ensures Settled(f, Tree(Entered(f, t.spots), t.dirty), [])
  {
    hide AllInserted, Box.Contains, Strays;
    var s := t.spots[[]];
    NoStrays(f, t);
    if s.built { AllInsertedInside(f, t.spots[[] := s.(queue := [])], s.queue, 0, t.dirty - f.marked); }
  }

  /**
    If no object of the tree strays, an unmarked object that has not left the root's region is there after the update
    exactly when, once the queue has entered, no node above it that is still unbuilt sends an object to the corner that
    leads to it, whether or not it moved.
   */
  lemma CalmUpdate(f: Facts, t: Tree, o: GameObject)
    requires Sound(f.root, t.spots) && f.root.NonNegative() && Strays(f, t) == {}
    requires o !in f.marked && o !in Outside(f, t.dirty)
    ensures o in All(Visited(f, t, []).spots) <==> Kept(f, Entered(f, t.spots), [], o, false)
  {
    hide Sound, Visited, Kept, Strays, Inside, Outside, Box.NonNegative;
    var e := Tree(Entered(f, t.spots), t.dirty);
    SoundBranches(f.root, t.spots);
    EnteredKeeps(f, t.spots);
    StartsEntered(f, t);
    EnteredSettled(f, t);
    VisitedSettled(f, e, [], {o});
    UnderRoot(Visited(f, t, []).spots);
  }

  /** If every dirty object returns to its node, every node is built then. */
  lemma CalmBuilds(f: Facts, t: Tree)
    requires Sound(f.root, t.spots) && f.root.NonNegative() && Rests(f, Tree(Entered(f, t.spots), t.dirty), [])
    ensures var u := Visited(f, t, []).spots; forall q :: q in u ==> u[q].built
  {
    hide Sound, Visited, Rests, Box.NonNegative;
    EnteredKeeps(f, t.spots);
    StartsEntered(f, t);
    VisitedBuilds(f, Tree(Entered(f, t.spots), t.dirty), []);
    forall q | q in Visited(f, t, []).spots
      ensures [] <= q
    {}
  }

  /**
    With an empty queue that is a matter of the tree alone: an unmarked object at `q` remains exactly if no unbuilt
    node above `q` sends objects to the corner that leads to `q`.
   */
  lemma QuietUpdate(f: Facts, t: Tree, q: Path, o: GameObject)
    requires Sound(f.root, t.spots) && f.root.NonNegative() && Strays(f, t) == {} && t.spots[[]].queue == []
    requires q in t.spots && o in t.spots[q].objects && o !in f.marked && o !in Outside(f, t.dirty)
    ensures o in All(Visited(f, t, []).spots) <==>
            forall i :: 0 <= i < |q| && !At(t.spots, q[..i]).built ==> q[i] !in Sends(f, t.spots, q[..i])
  {
    hide Branched, Lives, Queued, Visited, Sends, Strays, Outside, Box.NonNegative;
    SoundBranches(f.root, t.spots);
    EnteredNothing(f, t.spots);
    CalmUpdate(f, t, o);
    forall i | 0 <= i <= |q|
      ensures q[..i] in t.spots
    {
      PrefixIn(f.root, t.spots, q, i);
    }
    if Kept(f, t.spots, [], o, false) {
      var r :| r in t.spots && o in t.spots[r].objects && Spared(f, t.spots, [], r, false);
      assert r == q;
    }
    if forall i :: 0 <= i < |q| && !At(t.spots, q[..i]).built ==> q[i] !in Sends(f, t.spots, q[..i]) {
      assert Spared(f, t.spots, [], q, false);
    }
  }

  lemma EnteredNothing(f: Facts, t: Spots)
    requires [] in t && t[[]].queue == []
    ensures Entered(f, t) == t
  {
    assert t[[]].objects + t[[]].queue == t[[]].objects;
  }

  /** In any update an object that is neither dirty nor marked survives where no unbuilt node above aims at it. */
  lemma SafeUpdate(f: Facts, t: Tree, o: GameObject)
    requires Sound(f.root, t.spots) && o !in t.dirty && o !in f.marked && Kept(f, Entered(f, t.spots), [], o, true)
    ensures o in All(Visited(f, t, []).spots)
  {
    hide Sound, Visited, Kept;
    EnteredKeeps(f, t.spots);
    StartsEntered(f, t);
    VisitedSafe(f, Tree(Entered(f, t.spots), t.dirty), [], o);
    KeptListed(f, Visited(f, t, []).spots, o, true);
  }

  /** With every node built and an empty queue no clean unmarked object is lost, whatever else moves. */
  lemma BuiltUpdate(f: Facts, t: Tree, o: GameObject)
    requires Sound(f.root, t.spots) && t.spots[[]].queue == [] && forall q :: q in t.spots ==> t.spots[q].built
    requires o in All(t.spots) && o !in t.dirty && o !in f.marked
    ensures o in All(Visited(f, t, []).spots)
  {
    hide Unique, Lives, Queued, Visited, Kept;
    assert t.spots[[] := t.spots[[]].(queue := [])] == t.spots;
    KeptListed(f, t.spots, o, true);
    SafeUpdate(f, t, o);
  }

  /** The objects of the tree and of the root's queue. */
  ghost function Arrived(t: Spots): set<GameObject> {
    All(t) + Elems(At(t, []).queue)
  }

  /**
    The first update of a tree keeps every unmarked object that has not left the root's region, and builds every node if
    those of them that moved have volume.
   */
  lemma FirstUpdate(f: Facts, t: Tree)
    requires Steady(f.root, t.spots) && f.root.NonNegative() && !t.spots[[]].built
    ensures var u, own := Visited(f, t, []).spots, Arrived(t.spots);
            && own - f.marked - Outside(f, t.dirty) <= All(u) <= own - f.marked
            && ((forall o :: o in own && o in t.dirty - f.marked - Outside(f, t.dirty) ==> !f.BoxOf(o).IsPoint()) ==>
                 forall q :: q in u ==> u[q].built)
  {
    hide Unique, Lives, Queued, Visited, Fit, Tiny, Box.Contains, Box.IsPoint, Box.NonNegative;
    var e, own := Entered(f, t.spots), Arrived(t.spots);
    OnlyRoot(f.root, t.spots);
    AllOf(t.spots, []);
    assert Strays(f, t) == {};
    UpdateAddsNone(f, t);
    UpdateCleans(f, t);
    var u := Visited(f, t, []);
    forall o | o in own - f.marked - Outside(f, t.dirty)
      ensures o in All(u.spots)
    {
      assert o in e[[]].objects && Spared(f, e, [], [], false);
      CalmUpdate(f, t, o);
    }
    if forall o :: o in own && o in t.dirty - f.marked - Outside(f, t.dirty) ==> !f.BoxOf(o).IsPoint() {
      assert Leaf(e, []);
      CalmBuilds(f, t);
    }
  }

  lemma OnlyRoot(root: Box, t: Spots)
    requires Steady(root, t) && !t[[]].built
    ensures t.Keys == {[]}
    ensures All(t) == Elems(t[[]].objects)
  {
    forall q | q in t
      ensures |q| == 0
    {
      assert q[..0] == [];
      if |q| > 0 { PrefixIn(root, t, q, 0); }
    }
  }

  /**
    Which objects the update of a whole tree keeps, of those that are not marked and have not left the root's region. If
    none strays, exactly the spared ones; in a tree that was not visited before all; in a fully built tree with an empty
    queue and at most two strays all; in any case a clean object that is spared in the wide sense. All nodes are built
    afterwards if all that moved return.
   */
  ghost predicate Conserves(f: Facts, t: Tree, u: Tree) {
    [] in t.spots &&
    var e, owed := Tree(Entered(f, t.spots), t.dirty), Arrived(t.spots) - f.marked - Outside(f, t.dirty);
    && (Strays(f, t) == {} ==> forall o :: o in owed ==> (o in All(u.spots) <==> Kept(f, e.spots, [], o, false)))
    && (!t.spots[[]].built ==> owed <= All(u.spots))
    && ((forall q :: q in t.spots ==> t.spots[q].built) && t.spots[[]].queue == [] && |Strays(f, t)| <= 2 ==>
          owed <= All(u.spots))
    && (forall o :: o in owed - t.dirty && Kept(f, e.spots, [], o, true) ==> o in All(u.spots))
    && (Rests(f, e, []) ==> forall q :: q in u.spots ==> u.spots[q].built)
  }

  lemma UpdateConserves(f: Facts, t: Tree)
    requires Steady(f.root, t.spots) && f.root.NonNegative()
    ensures Conserves(f, t, Visited(f, t, []))
  {
    hide Sound, Visited, Kept, Entered, Strays, Rests, Outside, All, Box.NonNegative;
    SoundBranches(f.root, t.spots);
    var e, owed := Tree(Entered(f, t.spots), t.dirty), Arrived(t.spots) - f.marked - Outside(f, t.dirty);
    if Strays(f, t) == {} {
      forall o | o in owed {
        CalmUpdate(f, t, o);
      }
    }
    if Rests(f, e, []) { CalmBuilds(f, t); }
    if !t.spots[[]].built { FirstUpdate(f, t); }
    if (forall q :: q in t.spots ==> t.spots[q].built) && t.spots[[]].queue == [] && |Strays(f, t)| <= 2 {
      TwoMoveUpdate(f, t);
    }
    forall o | o in owed - t.dirty && Kept(f, e.spots, [], o, true) {
      SafeUpdate(f, t, o);
    }
  }

  /** All of this together. */
  lemma UpdateLaw(f: Facts, t: Tree)
    requires Steady(f.root, t.spots) && f.root.NonNegative() && InPlace(f, t.spots, t.dirty)
    ensures var u := Visited(f, t, []);
            && Steady(f.root, u.spots) && u.spots[[]].built && u.spots[[]].ready && u.spots[[]].queue == []
            && InPlace(f, u.spots, {}) && u.dirty <= t.dirty && Conserves(f, t, u)
            && forall o :: o in All(u.spots) ==>
                 o !in u.dirty && o !in f.marked && (o in All(t.spots) || o in t.spots[[]].queue)
  {
    hide Sound, Visited, InPlace, Conserves;
    SoundBranches(f.root, t.spots);
    UpdateKeeps(f, t);
    UpdatePlaces(f, t);
    UpdateCleans(f, t);
    UpdateAddsNone(f, t);
    UpdateConserves(f, t);
  }

  // ---------- runs ----------

  /** What an update finds: boxes and marks, the objects queued since the last one, and the dirty flags. */
  datatype Tick = Tick(facts: Facts, queued: seq<GameObject>, dirty: set<GameObject>)

  ghost function Fed(t: Spots, queued: seq<GameObject>): Spots {
    t[[] := At(t, []).(queue := At(t, []).queue + queued, ready := At(t, []).ready && queued == [])]
  }

  ghost function Next(t: Spots, k: Tick): Spots {
    Visited(k.facts, Tree(Fed(t, k.queued), k.dirty), []).spots
  }

  ghost function Ran(t: Spots, ticks: seq<Tick>): Spots
    decreases |ticks|
  {
    if ticks == [] then t else Ran(Next(t, ticks[0]), ticks[1..])
  }
}
