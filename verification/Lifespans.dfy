/** How long an empty leaf lives: a run of updates that puts nothing into it drops it when its countdown is over. */
module Lifespans {
  import opened Division
  import opened Geometry
  import opened Layout
  import opened Objects
  import opened Outcomes
  import opened Sequences
  import opened Soundness
  import opened Updates
  import opened Visits

  /** The nodes above `r` were visited, and so was `r`, if it is there: then it is an empty leaf. */
  ghost predicate Clear(t: Spots, r: Path) {
    && r != [] && (forall i :: 0 <= i < |r| ==> r[..i] in t && t[r[..i]].built)
    && (r in t ==> t[r].built && t[r].objects == [] && Leaf(t, r))
  }

  /** Of the objects `d`, none that is listed and not marked lies in the region of `r`. */
  ghost predicate Shunned(f: Facts, t: Spots, d: set<GameObject>, r: Path) {
    forall o :: o in d - f.marked && o in All(t) ==> !RegionAt(f.root, r).Contains(f.BoxOf(o))
  }

  lemma ShunnedLater(f: Facts, t: Spots, u: Spots, d: set<GameObject>, r: Path)
    requires Shunned(f, t, d, r) && Only(t, u, {})
    ensures Shunned(f, u, d, r)
  {
    hide RegionAt, Box.Contains;
  }

  /** Nothing happened to `r`. */
  ghost predicate Same(t: Spots, u: Spots, r: Path) {
    Clear(u, r) && (r in u <==> r in t) && (r in t ==> u[r] == t[r])
  }

  lemma SameJoins(t: Spots, u: Spots, v: Spots, r: Path)
    requires Same(t, u, r) && Same(u, v, r)
    ensures Same(t, v, r)
  {}

  // ---------- objects that go elsewhere ----------

  /** An object put into a region that is not around its box does not matter to `r`. */
  lemma PutElsewhere(root: Box, t: Spots, q: Path, o: GameObject, box: Box, r: Path)
    requires root.NonNegative() && Branched(root, t) && Clear(t, r) && !RegionAt(root, r).Contains(box)
    requires q == [] || (q in t && q != r) || RegionAt(root, q).Contains(box)
    ensures Same(t, Put(t, q, o), r)
  {
    hide RegionAt, Box.Contains, Box.NonNegative, Tiny;
    assert q != r;
    forall k: Corner | r in t
      ensures r + [k] !in Put(t, q, o)
    {
      assert (r + [k])[..|r|] == r;
      if q == r + [k] { AncestorContains(root, q, |r|, box); }
    }
  }

  lemma RelocatedElsewhere(f: Facts, t: Spots, p: Path, o: GameObject, r: Path)
    requires Sound(f.root, t) && f.root.NonNegative() && Clear(t, r) && p in t && o in t[p].objects
    requires !RegionAt(f.root, r).Contains(f.BoxOf(o))
    ensures Same(t, Relocated(f, t, p, o), r)
  {
    hide RegionAt, Box.Contains, Box.NonNegative, Tiny, Relocated, Unique, Lives, Queued;
    var d := Landing(f, t, p, o);
    var v := t[p := t[p].(objects := Without(t[p].objects, o))];
    assert Branched(f.root, v);
    assert Same(t, v, r);
    if d.Some? {
      PutElsewhere(f.root, v, d.value, o, f.BoxOf(o), r);
    }
  }

  lemma {:induction false} AllRelocatedElsewhere(f: Facts, t: Spots, p: Path, moved: seq<GameObject>, i: nat, r: Path)
    requires Sound(f.root, t) && f.root.NonNegative() && Clear(t, r) && p in t && NoDup(moved) && i <= |moved|
    requires i < |moved| ==> t[p].lifespan == -1
    requires forall j :: i <= j < |moved| ==>
               moved[j] in t[p].objects && !RegionAt(f.root, r).Contains(f.BoxOf(moved[j]))
    ensures Same(t, AllRelocated(f, t, p, moved, i), r)
    decreases |moved| - i
  {
    hide Sound, Relocated, RegionAt, Box.Contains, Box.NonNegative, Clear;
    if i < |moved| {
      var v := Relocated(f, t, p, moved[i]);
      RelocatedKeeps(f, t, p, moved[i]);
      RelocatedElsewhere(f, t, p, moved[i], r);
      AllRelocatedElsewhere(f, v, p, moved, i + 1, r);
      SameJoins(t, v, AllRelocated(f, v, p, moved, i + 1), r);
    }
  }

  lemma {:induction false} AllInsertedElsewhere(f: Facts, t: Spots, list: seq<GameObject>, i: nat, r: Path)
    requires Sound(f.root, t) && f.root.NonNegative() && Clear(t, r) && NoDup(list)
    requires forall j :: i <= j < |list| ==> Nowhere(t, list[j]) && !RegionAt(f.root, r).Contains(f.BoxOf(list[j]))
    ensures Same(t, AllInserted(f, t, [], list, i), r)
    decreases |list| - i
  {
    hide Unique, Lives, Queued, Nowhere, Dest, RegionAt, Tiny, Box.Contains, Box.NonNegative, Clear;
    if i < |list| {
      var v, d := Inserted(f, t, [], list[i]), Dest(f.root, t, [], f.BoxOf(list[i]));
      InsertedKeeps(f, t, [], list[i]);
      if d.Some? {
        DestHolds(f.root, t, [], f.BoxOf(list[i]));
        PutElsewhere(f.root, t, d.value, list[i], f.BoxOf(list[i]), r);
      }
      forall j | i + 1 <= j < |list|
        ensures Nowhere(v, list[j])
      {
        StillNowhere(f, t, [], list[i], list[j]);
      }
      AllInsertedElsewhere(f, v, list, i + 1, r);
      SameJoins(t, v, AllInserted(f, v, [], list, i + 1), r);
    }
  }

  // ---------- one visit ----------

  /** What is left of the countdown of an empty leaf after one more step. */
  function Stepped(s: Spot): int {
    if s.lifespan == -1 then s.maxLifespan else if s.lifespan > 0 then s.lifespan - 1 else s.lifespan
  }

  /**
    What becomes of `r` by the visit of the node at `p`. From above it is dropped if its countdown is over; else the
    countdown goes on by one step. Visits elsewhere do nothing to it.
   */
  ghost predicate Fate(t: Spots, u: Spots, p: Path, r: Path) {
    Clear(u, r) &&
    if r !in t || (p < r && t[r].lifespan == 0) then r !in u
    else r in u && u[r] == if p <= r then t[r].(lifespan := Stepped(t[r])) else t[r]
  }

  /** A dying child has nothing below it, so all other nodes below `p` stay. */
  lemma {:induction false} PrunedSpares(root: Box, t: Spots, p: Path, c: nat, q: Path)
    requires Sound(root, t) && p in t && c <= 8 && q in t && p < q
    requires |q| == |p| + 1 ==> !(t[q].lifespan == 0 && t[q].objects == [])
    ensures var u := Pruned(t, p, c);
            q in u && u[q] == t[q].(lifespan := u[q].lifespan) && (u[q].lifespan == t[q].lifespan || t[q].objects != [])
    decreases 8 - c
  {
    hide Unique, Lives, Queued, RegionAt, Tiny;
    if c < 8 {
      var s := p + [c];
      JudgedKeeps(root, t, p, c);
      if s in t && t[s].lifespan == 0 && t[s].objects == [] && s <= q {
        SoundLives(root, t);
        DeadIsLeaf(root, t, s);
        assert false;
      }
      PrunedSpares(root, Judged(t, s), p, c + 1, q);
    }
  }

  lemma SoundLives(root: Box, t: Spots)
    requires Sound(root, t)
    ensures Lives(t)
  {}

  /** A node that was visited and has no queue: up to the loop over its children a visit changes only its own fields. */
  lemma PreparedPlain(f: Facts, t: Spots, p: Path)
    requires p in t && t[p].built && t[p].queue == []
    ensures var u := Prepared(f, t, p);
            && p in u && u == t[p := u[p]] && u[p].built && (t[p].objects == [] ==> u[p].objects == [])
            && (t[p].objects == [] && Leaf(t, p) && t[p].ready ==> u[p] == t[p].(lifespan := Stepped(t[p])))
  {
    var s := t[p];
    var v := t[p := s.(queue := [])];
    assert AllInserted(f, v, p, [], 0) == v;
    assert Refreshed(f, t, p) == t[p := s.(built := true, ready := true)];
    assert forall c: Corner :: p + [c] != p;
  }

  lemma BelowOf(f: Facts, t: Tree, p: Path, r: Path)
    requires Sound(f.root, t.spots) && p in t.spots && t.spots[p].queue == []
    requires Clear(t.spots, r) && p < r && r in t.spots
    ensures var u := Below(f, t, p).spots;
            && Clear(u, r)
            && if Up(r) == p && t.spots[r].lifespan == 0 then r !in u else r in u && u[r] == t.spots[r]
  {
    hide Unique, Queued, RegionAt, Tiny, Pruned, Prepared;
    PrefixAt(t.spots, p, r);
    PreparedPlain(f, t.spots, p);
    PreparedKeeps(f, t.spots, p);
    var w := Prepared(f, t.spots, p);
    var u := Pruned(w, p, 0);
    PrunedShrinks(w, p, 0);
    PrunedKeeps(f.root, w, p, 0);
    PrunedOutside(w, p, 0);
    forall i | 0 <= i < |r|
      ensures r[..i] in u && u[r[..i]].built
    {
      if |p| < i {
        assert p < r[..i];
        PrefixIn(f.root, t.spots, r, i);
        PrunedSpares(f.root, w, p, 0, r[..i]);
      } else if i == |p| {
        assert r[..i] == p;
      } else {
        assert !(p <= r[..i]);
      }
    }
    if Up(r) == p {
      assert r == p + [Last(r)];
      PrunedExactly(w, p, 0, Last(r));
    } else {
      PrunedSpares(f.root, w, p, 0, r);
    }
  }

  lemma PrefixAt(t: Spots, p: Path, r: Path)
    requires Clear(t, r) && p < r
    ensures p in t && t[p].built
  {
    assert p == r[..|p|];
  }

  lemma BelowElsewhere(f: Facts, t: Tree, p: Path, r: Path)
    requires Sound(f.root, t.spots) && p in t.spots && t.spots[p].queue == [] && Clear(t.spots, r) && !(p <= r)
    ensures Same(t.spots, Below(f, t, p).spots, r)
  {
    hide Sound, Below;
    BelowOutside(f, t, p);
    forall i | 0 <= i < |r|
      ensures !(p <= r[..i])
    {}
    forall k: Corner | r in t.spots
      ensures !(p <= r + [k])
    {
      PrefixOrWhole(p, r, k);
    }
  }

  lemma BelowItself(f: Facts, t: Tree, r: Path)
    requires Sound(f.root, t.spots) && r in t.spots && Clear(t.spots, r)
    ensures var u := Below(f, t, r).spots;
            Clear(u, r) && r in u && u[r] == t.spots[r].(lifespan := Stepped(t.spots[r]))
  {
    hide Branched, Unique, Lives, RegionAt, Pruned, Prepared;
    PreparedPlain(f, t.spots, r);
    PreparedKeeps(f, t.spots, r);
    var w := Prepared(f, t.spots, r);
    PrunedShrinks(w, r, 0);
    PrunedKeeps(f.root, w, r, 0);
    PrunedOutside(w, r, 0);
    forall i | 0 <= i < |r|
      ensures !(r <= r[..i])
    {}
  }

  /** The corner of `p` that leads to `r`, none if `r` is not below `p`. */
  function Toward(p: Path, r: Path): nat {
    if p < r then r[|p|] else 8
  }

  lemma {:induction false} KidsFate(f: Facts, t: Tree, p: Path, flags: set<Corner>, c: nat, r: Path, d: set<GameObject>)
    requires Sound(f.root, t.spots) && f.root.NonNegative() && p in t.spots && c <= 8
    requires forall k :: k in flags && c <= k ==> p + [k] in t.spots
    requires Clear(t.spots, r) && Shunned(f, t.spots, d, r) && t.dirty <= d
    requires Toward(p, r) in flags && c <= Toward(p, r) ==> r in t.spots && !Tiny(RegionAt(f.root, p))
    ensures var u := KidsVisited(f, t, p, flags, c).spots;
            if Toward(p, r) in flags && c <= Toward(p, r) then Fate(t.spots, u, p + [r[|p|]], r)
            else Same(t.spots, u, r)
    decreases Level(RegionAt(f.root, p)), 8 - c
  {
    hide Unique, Lives, Queued, Visited, Grows, RegionAt, Tiny, Box.Contains, Box.NonNegative, Clear, Shunned;
    if c < 8 {
      if c !in flags || Tiny(RegionAt(f.root, p)) {
        KidsFate(f, t, p, flags, c + 1, r, d);
      } else {
        var s := p + [c];
        var v := Visited(f, t, s);
        RegionBelow(f.root, p, c);
        VisitedKeeps(f, t, s);
        VisitedOnly(f, t, s);
        ReadyMeans(f.root, t.spots, s);
        KidGrows(t.spots, v.spots, p, flags, c);
        ShunnedLater(f, t.spots, v.spots, d, r);
        UnderCorner(p, c, r);
        VisitedFate(f, t, s, r, d);
        KidsFate(f, v, p, flags, c + 1, r, d);
      }
    }
  }

  lemma {:induction false} VisitedFate(f: Facts, t: Tree, p: Path, r: Path, d: set<GameObject>)
    requires Sound(f.root, t.spots) && f.root.NonNegative() && p in t.spots && t.spots[p].queue == []
    requires Clear(t.spots, r) && Shunned(f, t.spots, d, r) && t.dirty <= d && (p <= r ==> r in t.spots)
    ensures Fate(t.spots, Visited(f, t, p).spots, p, r)
    decreases Level(RegionAt(f.root, p)), 10
  {
    hide Unique, Lives, Queued, Prepared, Pruned, AllRelocated, KidsVisited, Grows, NoDup, RegionAt, Tiny, Box.Contains,
      Box.NonNegative, Clear, Shunned, Moved;
    var moved := Moved(Tree(Prepared(f, t.spots, p), t.dirty), p);
    var u := Below(f, t, p);
    var flags := Kids(u.spots, p);
    BelowKeeps(f, t, p);
    BelowOnly(f, t, p);
    ShunnedLater(f, t.spots, u.spots, d, r);
    if p == r { BelowItself(f, t, r); } else if p < r { BelowOf(f, t, p, r); } else { BelowElsewhere(f, t, p, r); }
    if p < r && r in u.spots {
      PrefixIn(f.root, u.spots, r, |p|);
      assert r[..|p|] == p;
    } else if p < r {
      assert r == Up(r) + [r[|p|]];
    }
    KidsFate(f, u, p, flags, 0, r, d);
    KidsVisitedKeeps(f, u, p, flags, 0);
    KidsVisitedOnly(f, u, p, flags, 0);
    var v := KidsVisited(f, u, p, flags, 0);
    ShunnedLater(f, u.spots, v.spots, d, r);
    StillListed(u.spots[p].objects, v.spots[p].objects, moved);
    MovedShun(f, t, p, v.spots, r, d);
    AllRelocatedElsewhere(f, v.spots, p, moved, 0, r);
  }

  lemma MovedShun(f: Facts, t: Tree, p: Path, v: Spots, r: Path, d: set<GameObject>)
    requires Sound(f.root, t.spots) && p in t.spots && p in v && t.dirty <= d && Shunned(f, v, d, r)
    requires forall o :: o in Moved(Tree(Prepared(f, t.spots, p), t.dirty), p) ==> o in v[p].objects
    ensures forall o :: o in Moved(Tree(Prepared(f, t.spots, p), t.dirty), p) ==>
              !RegionAt(f.root, r).Contains(f.BoxOf(o))
  {
    hide Sound, Prepared, RegionAt, Box.Contains;
    PreparedKeeps(f, t.spots, p);
    WithinMembers(Prepared(f, t.spots, p)[p].objects, t.dirty);
    AllOf(v, p);
  }

  // ---------- runs ----------

  /** No object that is queued, or has moved and is not marked, lies in the region of `r`. */
  ghost predicate Avoided(f: Facts, t: Tree, r: Path) {
    && (forall o :: o in At(t.spots, []).queue ==> !RegionAt(f.root, r).Contains(f.BoxOf(o)))
    && (forall o :: o in t.dirty - f.marked && o in All(t.spots) ==> !RegionAt(f.root, r).Contains(f.BoxOf(o)))
  }

  /** One update of the whole tree. */
  lemma UpdateFate(f: Facts, t: Tree, r: Path)
    requires Sound(f.root, t.spots) && f.root.NonNegative() && Clear(t.spots, r) && r in t.spots && Avoided(f, t, r)
    ensures Fate(t.spots, Visited(f, t, []).spots, [], r)
  {
    hide Branched, Unique, Lives, Queued, Visited, AllInserted, RegionAt, Box.Contains, Box.NonNegative, Nowhere, Only;
    assert [] <= r && r[..0] == [];
    var e := Entered(f, t.spots);
    EnteredKeeps(f, t.spots);
    StartsEntered(f, t);
    EnteredElsewhere(f, t.spots, r);
    EnteredShun(f, t, e, r);
    VisitedFate(f, Tree(e, t.dirty), [], r, t.dirty);
  }

  lemma EnteredShun(f: Facts, t: Tree, e: Spots, r: Path)
    requires [] in t.spots && Avoided(f, t, r) && Only(t.spots, e, Elems(t.spots[[]].queue))
    ensures Shunned(f, e, t.dirty, r)
  {
    hide RegionAt, Box.Contains;
  }

  lemma EnteredElsewhere(f: Facts, t: Spots, r: Path)
    requires Sound(f.root, t) && f.root.NonNegative() && Clear(t, r)
    requires forall o :: o in At(t, []).queue ==> !RegionAt(f.root, r).Contains(f.BoxOf(o))
    ensures Same(t, Entered(f, t), r)
  {
    hide Branched, Unique, Lives, Queued, AllInserted, RegionAt, Box.Contains, Box.NonNegative, Nowhere;
    assert r[..0] == [];
    var s := t[[]];
    var v := t[[] := s.(queue := [])];
    ReadyMeans(f.root, t, []);
    assert Same(t, v, r);
    if s.ready { assert v == t; } else { QueueTaken(f.root, t, []); }
    AllInsertedElsewhere(f, v, s.queue, 0, r);
  }

  /** Throughout the run the queue is new to the tree, and nothing that comes or moves lies in the region of `r`. */
  ghost predicate AllAvoid(root: Box, t: Spots, ticks: seq<Tick>, r: Path)
    decreases |ticks|
  {
    ticks != [] ==>
      var k := ticks[0];
      && k.facts.root == root && NoDup(k.queued) && Elems(k.queued) !! All(t)
      && Avoided(k.facts, Tree(Fed(t, k.queued), k.dirty), r) && AllAvoid(root, Next(t, k), ticks[1..], r)
  }

  lemma FedSound(root: Box, t: Spots, queued: seq<GameObject>)
    requires Sound(root, t) && t[[]].built && t[[]].queue == [] && NoDup(queued) && Elems(queued) !! All(t)
    ensures Sound(root, Fed(t, queued))
    ensures forall q :: q in t ==> Fed(t, queued)[q].objects == t[q].objects && Fed(t, queued)[q].built == t[q].built
    ensures Fed(t, queued).Keys == t.Keys && Fed(t, queued)[[]].queue == queued
  {
    hide RegionAt, Tiny;
    var u := Fed(t, queued);
    assert [] + queued == queued;
    forall q, o | q in t && o in t[q].objects
      ensures o !in queued
    {
      assert o in All(t);
    }
    assert forall q :: q in t && Leaf(t, q) ==> Leaf(u, q);
  }

  /**
    An empty leaf that is left alone is there for as many updates as its countdown says, and gone after the next: one
    more if the countdown has still to start. It is never dropped if the limit has run over to a negative number.
   */
  lemma {:induction false} LeafExpires(root: Box, t: Spots, ticks: seq<Tick>, r: Path)
    requires root.NonNegative() && Sound(root, t) && t[[]].queue == [] && Clear(t, r) && r in t
    requires AllAvoid(root, t, ticks, r)
    ensures var n, max, u := t[r].lifespan, t[r].maxLifespan, Ran(t, ticks);
            && (n >= 0 ==> (|ticks| <= n ==> r in u) && (|ticks| == n + 1 ==> r !in u))
            && (n == -1 && max >= 0 ==> (|ticks| <= max + 1 ==> r in u) && (|ticks| == max + 2 ==> r !in u))
            && (n < -1 || (n == -1 && max < 0) ==> r in u)
    decreases |ticks|
  {
    hide Sound, RegionAt, Box.NonNegative, Avoided, NoDup, Visited, All;
    if ticks != [] {
      var k := ticks[0];
      var s, u := Fed(t, k.queued), Next(t, k);
      assert r[..0] == [];
      SoundBranches(root, t);
      FedSound(root, t, k.queued);
      assert Clear(s, r);
      UpdateFate(k.facts, Tree(s, k.dirty), r);
      VisitedKeeps(k.facts, Tree(s, k.dirty), []);
      assert [] <= r;
      if r in u { LeafExpires(root, u, ticks[1..], r); }
    }
  }

  // ---------- the limits there can be ----------

  /** New nodes begin with 8. Doubled four times, a signed byte runs over to -128, and then to 0. */
  const LIMITS: set<int> := {8, 16, 32, 64, -128, 0}

  ghost predicate Limited(t: Spots) {
    forall q :: q in t ==> t[q].maxLifespan in LIMITS
  }

  lemma InsertedLimited(f: Facts, t: Spots, p: Path, o: GameObject)
    requires Limited(t)
    ensures Limited(Inserted(f, t, p, o))
  {
    hide Dest;
  }

  lemma {:induction false} AllInsertedLimited(f: Facts, t: Spots, p: Path, list: seq<GameObject>, i: nat)
    requires Limited(t)
    ensures Limited(AllInserted(f, t, p, list, i))
    decreases |list| - i
  {
    hide Limited, Inserted;
    if i < |list| {
      InsertedLimited(f, t, p, list[i]);
      AllInsertedLimited(f, Inserted(f, t, p, list[i]), p, list, i + 1);
    }
  }

  lemma RefreshedLimited(f: Facts, t: Spots, p: Path)
    requires p in t && Limited(t)
    ensures Limited(Refreshed(f, t, p))
  {
    hide Divided, AllInserted, Stay, Sends, RegionAt, Aims;
    var s := t[p];
    if !s.built {
      var v := t[p := s.(objects := s.objects + s.queue, queue := [])];
      DividedLaw(f, v, p);
      forall q | q in Divided(f, v, p)
        ensures Divided(f, v, p)[q].maxLifespan in LIMITS
      {
        if Replaced(p, Sends(f, v, p), q) { assert Fresh(f, Divided(f, v, p), q, v[p].objects); }
      }
    } else {
      AllInsertedLimited(f, t[p := s.(queue := [])], p, s.queue, 0);
    }
  }

  lemma {:induction false} PrunedLimited(t: Spots, p: Path, c: nat)
    requires c <= 8 && Limited(t)
    ensures Limited(Pruned(t, p, c))
    decreases 8 - c
  {
    if c < 8 { PrunedLimited(Judged(t, p + [c]), p, c + 1); }
  }

  lemma {:induction false} AllRelocatedLimited(f: Facts, t: Spots, p: Path, moved: seq<GameObject>, i: nat)
    requires p in t && Limited(t)
    ensures Limited(AllRelocated(f, t, p, moved, i))
    decreases |moved| - i
  {
    hide Limited, Inserted;
    if i < |moved| {
      var v := t[p := t[p].(objects := Without(t[p].objects, moved[i]))];
      assert Limited(v) by { assert forall q :: q in v ==> v[q].maxLifespan == t[q].maxLifespan; LimitedSame(t, v); }
      InsertedLimited(f, v, Climbed(f.root, p, f.BoxOf(moved[i])), moved[i]);
      InsertedAdds(f, v, Climbed(f.root, p, f.BoxOf(moved[i])), moved[i]);
      AllRelocatedLimited(f, Relocated(f, t, p, moved[i]), p, moved, i + 1);
    }
  }

  lemma LimitedSame(t: Spots, u: Spots)
    requires Limited(t) && forall q :: q in u ==> q in t && u[q].maxLifespan == t[q].maxLifespan
    ensures Limited(u)
  {}

  /** No visit leads to any other limit. */
  lemma {:induction false} VisitedLimited(f: Facts, t: Tree, p: Path)
    requires Sound(f.root, t.spots) && p in t.spots && Limited(t.spots)
    ensures Limited(Visited(f, t, p).spots)
    decreases Level(RegionAt(f.root, p)), 10
  {
    hide Sound, Refreshed, Pruned, AllRelocated, KidsVisited, Grows, NoDup, Limited, Moved, Unmarked, Countdown;
    var u := Below(f, t, p);
    BelowKeeps(f, t, p);
    RefreshedLimited(f, t.spots, p);
    RefreshedKeeps(f, t.spots, p);
    PreparedLimited(f, t.spots, p);
    PrunedLimited(Prepared(f, t.spots, p), p, 0);
    KidsLimited(f, u, p, Kids(u.spots, p), 0);
    KidsVisitedKeeps(f, u, p, Kids(u.spots, p), 0);
    AllRelocatedLimited(f, KidsVisited(f, u, p, Kids(u.spots, p), 0).spots, p,
                        Moved(Tree(Prepared(f, t.spots, p), t.dirty), p), 0);
  }

  lemma PreparedLimited(f: Facts, t: Spots, p: Path)
    requires p in Refreshed(f, t, p) && Limited(Refreshed(f, t, p))
    ensures Limited(Prepared(f, t, p))
  {
    hide Refreshed, Unmarked;
  }

  lemma {:induction false} KidsLimited(f: Facts, t: Tree, p: Path, flags: set<Corner>, c: nat)
    requires Sound(f.root, t.spots) && p in t.spots && c <= 8 && Limited(t.spots)
    requires forall k :: k in flags && c <= k ==> p + [k] in t.spots
    ensures Limited(KidsVisited(f, t, p, flags, c).spots)
    decreases Level(RegionAt(f.root, p)), 8 - c
  {
    hide Sound, Visited, Grows, Limited;
    if c < 8 {
      if c !in flags || Tiny(RegionAt(f.root, p)) {
        KidsLimited(f, t, p, flags, c + 1);
      } else {
        RegionBelow(f.root, p, c);
        var v := Visited(f, t, p + [c]);
        VisitedKeeps(f, t, p + [c]);
        VisitedLimited(f, t, p + [c]);
        KidGrows(t.spots, v.spots, p, flags, c);
        KidsLimited(f, v, p, flags, c + 1);
      }
    }
  }
}
