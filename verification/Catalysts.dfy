/** Catalysts: the 3x3 grid of a player with its line bonuses, and the catalysts lying on the ground. */
module Catalysts {
  import opened Sequences
  import opened Wrappers

  const GRID_SLOTS := 9
  const NO_SLOT := 0xFFFF_FFFF
  const NO_TYPE := 0xFF

  datatype Color = NoColor | Blue | Prismatic | Gold | Red | Green

  /** A default-made catalyst, or one made from its type, rarity and whether it is wild. */
  datatype Catalyst = Empty | Made(kind: nat, rarity: nat, wild: bool) {
    /** The constructor's table of types. */
    function Color(): Color {
      if Empty? then NoColor
      else if wild then Prismatic
      else if kind in {0, 1, 5, 6, 7, 9, 19, 21, 30} then Red
      else if kind in {2, 8, 12, 24, 28, 29, 32} then Gold
      else if kind in {3, 10, 11, 13, 14, 15, 16, 17, 18, 22, 33, 34} then Blue
      else if kind in {4, 20, 23, 25, 26, 27, 31} then Green
      else NoColor
    }

    predicate MatchingColor(other: Catalyst) {
      var a, b := Color(), other.Color();
      if a == NoColor || b == NoColor then false
      else if a == Prismatic || b == Prismatic then true
      else a == b
    }
  }

  /** What a loot object stores of a catalyst. */
  datatype LootData = LootData(kind: nat, level: nat, prismatic: bool)

  /** `LootData::SetCatalyst` */
  function ToLoot(c: Catalyst): LootData {
    match c
    case Empty => LootData(NO_TYPE, NO_TYPE, false)
    case Made(kind, rarity, _) => LootData(kind, rarity, c.Color() == Prismatic)
  }

  /** `Catalyst(const LootData&)` */
  function FromLoot(loot: LootData): Catalyst {
    Made(loot.kind, loot.level, loot.prismatic)
  }

  /** A catalyst that goes through a loot object comes back equal, exactly if there was one. */
  lemma LootRoundTripIff(c: Catalyst)
    ensures FromLoot(ToLoot(c)) == c <==> c.Made?
  {}

  /** Every one of the 35 types has a colour. */
  lemma EveryTypeHasColor(c: Catalyst)
    ensures c.Made? && (c.wild || c.kind < 35) <==> c.Color() != NoColor
  {}

  // ---------- line bonuses ----------

  /** The slots of the eight lines, the one the others are compared with first: rows, columns, diagonals. */
  function Line(k: nat): (nat, nat, nat)
    requires k < 8
  {
    if k < 3 then (3 * k, 3 * k + 1, 3 * k + 2)
    else if k < 6 then (k - 3, k, k + 3)
    else if k == 6 then (4, 0, 8)
    else (4, 2, 6)
  }

  predicate Bonus(a: Catalyst, b: Catalyst, c: Catalyst) {
    a.MatchingColor(b) && a.MatchingColor(c)
  }

  predicate BonusAt(grid: seq<Catalyst>, k: nat)
    requires |grid| == GRID_SLOTS && k < 8
  {
    var (a, b, c) := Line(k);
    Bonus(grid[a], grid[b], grid[c])
  }

  /** One colour fits all three, a prismatic catalyst fitting any. */
  predicate OneColor(a: Catalyst, b: Catalyst, c: Catalyst) {
    exists color: Color :: color != NoColor && Fits(a, color) && Fits(b, color) && Fits(c, color)
  }

  predicate Fits(c: Catalyst, color: Color) { c.Color() == color || c.Color() == Prismatic }

  /**
    A line has its bonus exactly if one colour fits it, or its first catalyst is prismatic and the two others
    have different colours: those two are never compared with each other.
   */
  lemma BonusIff(a: Catalyst, b: Catalyst, c: Catalyst)
    ensures Bonus(a, b, c) <==>
            OneColor(a, b, c)
            || (a.Color() == Prismatic && b.Color() != NoColor && c.Color() != NoColor && b.Color() != c.Color()
                && b.Color() != Prismatic && c.Color() != Prismatic)
  {
    hide Catalyst.Color;
    if Bonus(a, b, c) {
      var color := if a.Color() != Prismatic then a.Color() else if b.Color() != Prismatic
        then b.Color() else c.Color();
      assert Fits(a, color);
      if Fits(b, color) && Fits(c, color) {
        assert OneColor(a, b, c);
      }
    }
  }

  /** The types that share a colour. */
  const SHARED: seq<set<nat>> :=
    [{0, 1, 5, 6, 7, 9, 19, 21, 30}, {2, 8, 12, 24, 28, 29, 32}, {3, 10, 11, 13, 14, 15, 16, 17, 18, 22, 33, 34},
     {4, 20, 23, 25, 26, 27, 31}]

  /** So a line of three that are not wild has its bonus exactly if their types share a colour. */
  lemma BonusByType(a: nat, b: nat, c: nat, r: nat, s: nat, t: nat)
    ensures Bonus(Made(a, r, false), Made(b, s, false), Made(c, t, false)) <==>
            exists k :: 0 <= k < |SHARED| && a in SHARED[k] && b in SHARED[k] && c in SHARED[k]
  {
    assert SHARED[0] == {0, 1, 5, 6, 7, 9, 19, 21, 30} && SHARED[1] == {2, 8, 12, 24, 28, 29, 32};
    assert SHARED[2] == {3, 10, 11, 13, 14, 15, 16, 17, 18, 22, 33, 34} && SHARED[3] == {4, 20, 23, 25, 26, 27, 31};
    ColorByType(a, r);
    ColorByType(b, s);
    ColorByType(c, t);
  }

  lemma ColorByType(kind: nat, rarity: nat)
    ensures var color := Made(kind, rarity, false).Color();
            && color != Prismatic
            && (color == Red <==> kind in SHARED[0]) && (color == Gold <==> kind in SHARED[1])
            && (color == Blue <==> kind in SHARED[2]) && (color == Green <==> kind in SHARED[3])
  {}

  /** The slots of a line: those of one row, one column or one diagonal, the centre first in the diagonals. */
  lemma LineIs(k: nat)
    requires k < 8
    ensures var (a, b, c) := Line(k);
            && a != b && a != c && b < c && (if k < 6 then a < b else a == 4)
            && forall s: nat :: s < GRID_SLOTS ==>
                 (s in {a, b, c} <==>
                  if k < 3 then s / 3 == k else if k < 6 then s % 3 == k - 3
                  else if k == 6 then s / 3 == s % 3 else s / 3 + s % 3 == 2)
  {}

  // ---------- counting catalysts ----------

  function One(c: Catalyst): multiset<Catalyst> {
    if c == Empty then multiset{} else multiset{c}
  }

  /** The catalysts in a grid. */
  function Bag(grid: seq<Catalyst>): multiset<Catalyst> {
    if grid == [] then multiset{} else One(grid[0]) + Bag(grid[1..])
  }

  lemma Cancel<T>(a: multiset<T>, b: multiset<T>, c: multiset<T>)
    requires a + c == b + c
    ensures a == b
  {
    forall x
      ensures a[x] == b[x]
    {
      assert (a + c)[x] == a[x] + c[x] && (b + c)[x] == b[x] + c[x];
    }
  }

  /** Adding the same to both sides of an exchange. */
  lemma Extend<T>(a: multiset<T>, b: multiset<T>, x: multiset<T>, y: multiset<T>, more: multiset<T>)
    requires a + x == b + y
    ensures (more + a) + x == (more + b) + y && (a + more) + x == (b + more) + y
  {
    assert (more + a) + x == more + (a + x) && (more + b) + y == more + (b + y);
    assert (a + more) + x == more + (a + x) && (b + more) + y == more + (b + y);
  }

  lemma {:induction false} BagSet(grid: seq<Catalyst>, i: nat, c: Catalyst)
    requires i < |grid|
    ensures Bag(grid[i := c]) + One(grid[i]) == Bag(grid) + One(c)
  {
    hide One;
    if i == 0 {
      assert grid[i := c][1..] == grid[1..];
    } else {
      BagSet(grid[1..], i - 1, c);
      assert grid[i := c][1..] == grid[1..][i - 1 := c];
      Extend(Bag(grid[1..][i - 1 := c]), Bag(grid[1..]), One(grid[i]), One(c), One(grid[0]));
    }
  }

  /** Exchanging two slots. */
  lemma BagSwap(grid: seq<Catalyst>, i: nat, j: nat)
    requires i < |grid| && j < |grid| && i != j
    ensures Bag(grid[j := grid[i]][i := grid[j]]) == Bag(grid)
  {
    hide Bag, One;
    var mid := grid[j := grid[i]];
    BagSet(grid, j, grid[i]);
    BagSet(mid, i, grid[j]);
    Cancel(Bag(mid[i := grid[j]]), Bag(grid), One(grid[i]));
  }

  datatype NounKind = Crystal | Loot | Other

  /** An object on the ground. */
  datatype Thing = Thing(noun: NounKind, loot: Option<LootData>, marked: bool, timesUsed: nat) {
    function Holds(): multiset<Catalyst> {
      if noun == Crystal && loot.Some? && !marked then multiset{FromLoot(loot.value)} else multiset{}
    }
  }

  /** The catalysts that can still be picked up. */
  function OnGround(things: seq<Thing>): multiset<Catalyst> {
    if things == [] then multiset{} else OnGround(things[..|things| - 1]) + things[|things| - 1].Holds()
  }

  lemma {:induction false} GroundSet(things: seq<Thing>, i: nat, t: Thing)
    requires i < |things|
    ensures OnGround(things[i := t]) + things[i].Holds() == OnGround(things) + t.Holds()
  {
    hide Thing.Holds;
    var front, last := things[..|things| - 1], |things| - 1;
    if i == last {
      assert things[i := t][..last] == front;
    } else {
      GroundSet(front, i, t);
      assert things[i := t][..last] == front[i := t];
      Extend(OnGround(front[i := t]), OnGround(front), things[i].Holds(), t.Holds(), things[last].Holds());
    }
  }

  /** A catalyst that leaves one side and arrives at the other. */
  lemma Moved(a: multiset<Catalyst>, b: multiset<Catalyst>, less: multiset<Catalyst>, more: multiset<Catalyst>,
    c: multiset<Catalyst>)
    requires less + c == a && more == b + c
    ensures less + more == a + b
  {
    assert less + (b + c) == (less + c) + b;
  }

  lemma GroundGrows(things: seq<Thing>, t: Thing)
    ensures OnGround(things + [t]) == OnGround(things) + t.Holds()
  {
    assert (things + [t])[..|things|] == things;
  }

  class Player {
    const catalysts: array<Catalyst>
    const bonuses: array<bool>

    constructor ()
      ensures Valid() && fresh(catalysts) && fresh(bonuses)
      ensures Grid() == [Empty, Empty, Empty, Empty, Empty, Empty, Empty, Empty, Empty]
    {
      catalysts := new Catalyst[GRID_SLOTS](_ => Empty);
      bonuses := new bool[8](_ => false);
    }

    function Grid(): (g: seq<Catalyst>)
      reads catalysts
      ensures |g| == catalysts.Length
    {
      catalysts[..]
    }

    /** The bonuses are those of the grid. */
    ghost predicate Valid()
      reads catalysts, bonuses
    {
      && catalysts.Length == GRID_SLOTS && bonuses.Length == 8
      && forall k: nat :: k < 8 ==> bonuses[k] == BonusAt(Grid(), k)
    }

    /** The first empty slot, or none. */
    method GetOpenCatalystSlot() returns (slot: nat)
      requires Valid()
      ensures slot < GRID_SLOTS ==> Grid()[slot] == Empty && forall i :: 0 <= i < slot ==> Grid()[i] != Empty
      ensures slot >= GRID_SLOTS ==> slot == NO_SLOT && Empty !in Grid()
    {
      for i := 0 to GRID_SLOTS
        invariant forall j :: 0 <= j < i ==> catalysts[j] != Empty
      {
        if catalysts[i] == Empty {
          return i;
        }
      }
      return NO_SLOT;
    }

    /**
      Slots past the grid count as empty, except the one just past it, which is read outside the array:
      `beyond` is what that memory makes as a catalyst.
     */
    method GetCatalyst(slot: nat, beyond: Catalyst) returns (c: Catalyst)
      requires Valid()
      ensures slot < GRID_SLOTS ==> c == Grid()[slot]
      ensures slot >= GRID_SLOTS ==> c == if slot == GRID_SLOTS then beyond else Empty
    {
      if GRID_SLOTS < slot {
        return Empty;
      }
      return if slot < GRID_SLOTS then catalysts[slot] else beyond;
    }

    /** Setting a slot past the grid does nothing. */
    method SetCatalyst(c: Catalyst, slot: nat)
      requires Valid()
      modifies catalysts, bonuses
      ensures Valid() && Grid() == if slot < GRID_SLOTS then old(Grid())[slot := c] else old(Grid())
    {
      if slot < GRID_SLOTS {
        catalysts[slot] := c;
        UpdateCatalystBonuses();
      }
    }

    method UpdateCatalystBonuses()
      requires catalysts.Length == GRID_SLOTS && bonuses.Length == 8
      modifies bonuses
      ensures Valid()
    {
      hide BonusAt, Catalyst.MatchingColor;
      for i := 0 to 3
        invariant forall k :: 0 <= k < i ==> bonuses[k] == BonusAt(Grid(), k)
        invariant forall k :: 3 <= k < 3 + i ==> bonuses[k] == BonusAt(Grid(), k)
      {
        LinesAt(Grid(), i);
        var index := i * 3;
        var catalyst := catalysts[index];
        bonuses[i] := catalyst.MatchingColor(catalysts[index + 1]) && catalyst.MatchingColor(catalysts[index + 2]);
        catalyst := catalysts[i];
        bonuses[i + 3] := catalyst.MatchingColor(catalysts[i + 3]) && catalyst.MatchingColor(catalysts[i + 6]);
      }
      LinesAt(Grid(), 0);
      var catalyst := catalysts[4];
      bonuses[6] := catalyst.MatchingColor(catalysts[0]) && catalyst.MatchingColor(catalysts[8]);
      bonuses[7] := catalyst.MatchingColor(catalysts[2]) && catalyst.MatchingColor(catalysts[6]);
    }
  }

  lemma LinesAt(grid: seq<Catalyst>, i: nat)
    requires |grid| == GRID_SLOTS && i < 3
    ensures BonusAt(grid, i) == (grid[3 * i].MatchingColor(grid[3 * i + 1])
      && grid[3 * i].MatchingColor(grid[3 * i + 2]))
    ensures BonusAt(grid, i + 3) == (grid[i].MatchingColor(grid[i + 3]) && grid[i].MatchingColor(grid[i + 6]))
    ensures BonusAt(grid, 6) == (grid[4].MatchingColor(grid[0]) && grid[4].MatchingColor(grid[8]))
    ensures BonusAt(grid, 7) == (grid[4].MatchingColor(grid[2]) && grid[4].MatchingColor(grid[6]))
  {
    hide Catalyst.MatchingColor;
  }

  /** What is read for a slot, in the grid, just past it, or farther away. */
  function SlotAt(grid: seq<Catalyst>, slot: nat, beyond: Catalyst): Catalyst
    requires |grid| == GRID_SLOTS
  {
    if slot < GRID_SLOTS then grid[slot] else if slot == GRID_SLOTS then beyond else Empty
  }

  function GridSet(grid: seq<Catalyst>, slot: nat, c: Catalyst): (g: seq<Catalyst>)
    requires |grid| == GRID_SLOTS
    ensures |g| == GRID_SLOTS
  {
    if slot < GRID_SLOTS then grid[slot := c] else grid
  }

  function FirstEmpty(grid: seq<Catalyst>, i: nat): (k: nat)
    requires i <= |grid|
    ensures i <= k <= |grid| && (k < |grid| ==> grid[k] == Empty) && forall j :: i <= j < k ==> grid[j] != Empty
    decreases |grid| - i
  {
    if i == |grid| || grid[i] == Empty then i else FirstEmpty(grid, i + 1)
  }

  // ---------- the messages of one player and what they make of grid and ground ----------

  /** `deployed` says whether the player has a character in the instance. */
  datatype State = State(grid: seq<Catalyst>, things: seq<Thing>, deployed: bool) {
    predicate Valid() { |grid| == GRID_SLOTS }

    /** All catalysts there are: those in the grid and those that can be picked up. */
    ghost function Total(): multiset<Catalyst> { Bag(grid) + OnGround(things) }
  }

  datatype Message =
    | Drag(slot: nat, moveType: nat, newSlot: nat, beyond: Catalyst)
    | Interact(target: nat)
    | Deploy(now: bool)

  function Dropped(c: Catalyst): Thing {
    Thing(Crystal, Some(ToLoot(c)), false, 0)
  }

  /** What `DropLoot` leaves when anything else is used: an orb and always the same catalyst. */
  const ATTACK_SPEED := 1
  const COMMON := 0
  const GIFT := Made(ATTACK_SPEED, COMMON, false)
  const ORB := Thing(Other, None, false, 0)

  function AfterDrop(s: State, slot: nat, beyond: Catalyst): (t: State)
    requires s.Valid()
    ensures t.Valid()
  {
    var c := SlotAt(s.grid, slot, beyond);
    if !s.deployed || c == Empty then s
    else s.(grid := GridSet(s.grid, slot, Empty), things := s.things + [Dropped(c)])
  }

  /**
    What a drag makes of the grid and the ground. Only a deployed player with a catalyst in the slot does anything:
    type 0 empties that slot and puts the catalyst on the ground, type 2 exchanges it with another slot. Slots past the
    grid are read as `SlotAt` says and never written.
   */
  ghost predicate Dragged(s: State, slot: nat, moveType: nat, newSlot: nat, beyond: Catalyst, t: State)
    requires s.Valid() && t.Valid()
  {
    var c := if slot < GRID_SLOTS then s.grid[slot] else if slot == GRID_SLOTS then beyond else Empty;
    var other := if newSlot < GRID_SLOTS then s.grid[newSlot] else if newSlot == GRID_SLOTS then beyond else Empty;
    && t.deployed == s.deployed && |t.things| >= |s.things| && t.things[..|s.things|] == s.things
    && if !s.deployed || c == Empty || (moveType != 0 && moveType != 2) || (moveType == 2 && slot == newSlot) then
         t.grid == s.grid && |t.things| == |s.things|
       else if moveType == 0 then
         && (forall i :: 0 <= i < GRID_SLOTS ==> t.grid[i] == if i == slot then Empty else s.grid[i])
         && |t.things| == |s.things| + 1
         && t.things[|s.things|] == Thing(Crystal, Some(LootData(c.kind, c.rarity, c.wild)), false, 0)
       else
         && (forall i :: 0 <= i < GRID_SLOTS ==>
               t.grid[i] == if i == slot then other else if i == newSlot then c else s.grid[i])
         && |t.things| == |s.things|
  }

  lemma DragIs(s: State, slot: nat, moveType: nat, newSlot: nat, beyond: Catalyst)
    requires s.Valid()
    ensures Dragged(s, slot, moveType, newSlot, beyond, AfterDrag(s, slot, moveType, newSlot, beyond))
  {}

  /** Moving a catalyst and moving it back leaves all as it was, unless only the slot it is moved to was filled. */
  lemma DragBackIff(s: State, slot: nat, newSlot: nat, beyond: Catalyst)
    requires s.Valid() && slot < GRID_SLOTS && newSlot < GRID_SLOTS
    ensures AfterDrag(AfterDrag(s, slot, 2, newSlot, beyond), newSlot, 2, slot, beyond) == s <==>
            (s.deployed ==> s.grid[slot] != Empty || s.grid[newSlot] == Empty)
  {
    hide AfterDrag;
    var t := AfterDrag(s, slot, 2, newSlot, beyond);
    var u := AfterDrag(t, newSlot, 2, slot, beyond);
    DragIs(s, slot, 2, newSlot, beyond);
    DragIs(t, newSlot, 2, slot, beyond);
    if s.deployed ==> s.grid[slot] != Empty || s.grid[newSlot] == Empty {
      assert u.grid == s.grid && u.things == s.things;
    }
  }

  /**
    What using an object does. A marked or missing one does nothing; any other counts the use. Loot is marked. A crystal
    is marked and its catalyst goes to the first empty slot, if there is one; anything else leaves an orb and a catalyst
    if the player is deployed.
   */
  ghost predicate Interacted(s: State, target: nat, t: State)
    requires s.Valid() && t.Valid()
  {
    t.deployed == s.deployed &&
    if target >= |s.things| || s.things[target].marked then t == s
    else
      var was := s.things[target];
      && |t.things| >= |s.things| && t.things[target].timesUsed == was.timesUsed + 1
      && t.things[target].noun == was.noun && t.things[target].loot == was.loot
      && (forall i :: 0 <= i < |s.things| && i != target ==> t.things[i] == s.things[i])
      && (t.things[target].marked <==> was.noun == Loot || (was.noun == Crystal && Empty in s.grid))
      && (|t.things| == |s.things| + if was.noun == Other && s.deployed then 2 else 0)
      && (|t.things| > |s.things| ==>
            && t.things[|s.things|] == Thing(Other, None, false, 0)
            && t.things[|s.things| + 1] == Thing(Crystal, Some(LootData(1, 0, false)), false, 0))
      && if was.noun == Crystal && was.loot.Some? && Empty in s.grid then Received(s.grid, was.loot.value, t.grid)
         else t.grid == s.grid
  }

  /** The first empty slot has the catalyst of the loot data, the others are unchanged. */
  ghost predicate Received(was: seq<Catalyst>, loot: LootData, now: seq<Catalyst>) {
    |now| == |was| && exists k ::
      && 0 <= k < |was| && was[k] == Empty && Empty !in was[..k]
      && now[k] == Made(loot.kind, loot.level, loot.prismatic)
      && forall i :: 0 <= i < |was| && i != k ==> now[i] == was[i]
  }

  lemma InteractIs(s: State, target: nat)
    requires s.Valid()
    ensures Interacted(s, target, AfterInteract(s, target))
  {
    var k := FirstEmpty(s.grid, 0);
    if k < GRID_SLOTS {
      assert s.grid[k] in s.grid && Empty !in s.grid[..k];
    } else {
      assert Empty !in s.grid;
    }
  }

  function AfterDrag(s: State, slot: nat, moveType: nat, newSlot: nat, beyond: Catalyst): (t: State)
    requires s.Valid()
    ensures t.Valid()
  {
    var c := SlotAt(s.grid, slot, beyond);
    if !s.deployed || c == Empty then s
    else if moveType == 0 then AfterDrop(s, slot, beyond)
    else if moveType != 2 || slot == newSlot then s
    else s.(grid := GridSet(GridSet(s.grid, newSlot, c), slot, SlotAt(s.grid, newSlot, beyond)))
  }

  /** The catalyst goes to the first empty slot; without one, the object stays. */
  function AfterPickup(s: State, target: nat): (t: State)
    requires s.Valid() && target < |s.things|
    ensures t.Valid()
  {
    var thing, slot := s.things[target], FirstEmpty(s.grid, 0);
    if thing.marked || slot == GRID_SLOTS then s
    else
      var left := s.(things := s.things[target := thing.(marked := true)]);
      if thing.loot.None? then left else left.(grid := s.grid[slot := FromLoot(thing.loot.value)])
  }

  function AfterInteract(s: State, target: nat): (t: State)
    requires s.Valid()
    ensures t.Valid()
  {
    if target >= |s.things| || s.things[target].marked then s
    else
      var thing := s.things[target];
      var used := s.(things := s.things[target := thing.(timesUsed := thing.timesUsed + 1)]);
      match thing.noun
      case Crystal => AfterPickup(used, target)
      case Loot => used.(things := used.things[target := used.things[target].(marked := true)])
      case Other => if s.deployed then used.(things := used.things + [ORB, Dropped(GIFT)]) else used
  }

  function Step(s: State, m: Message): (t: State)
    requires s.Valid()
    ensures t.Valid()
  {
    match m
    case Drag(slot, moveType, newSlot, beyond) => AfterDrag(s, slot, moveType, newSlot, beyond)
    case Interact(target) => AfterInteract(s, target)
    case Deploy(now) => s.(deployed := now)
  }

  function Run(s: State, ms: seq<Message>): (t: State)
    requires s.Valid()
    ensures t.Valid()
    decreases ms
  {
    if ms == [] then s else Run(Step(s, ms[0]), ms[1..])
  }

  /** What each message does. */
  lemma StepIs(s: State, m: Message)
    requires s.Valid()
    ensures var t := Step(s, m);
            match m
            case Drag(slot, moveType, newSlot, beyond) => Dragged(s, slot, moveType, newSlot, beyond, t)
            case Interact(target) => Interacted(s, target, t)
            case Deploy(now) => t.deployed == now && t.grid == s.grid && t.things == s.things
  {
    hide AfterDrag, AfterInteract, Dragged, Interacted;
    match m
    case Drag(slot, moveType, newSlot, beyond) => DragIs(s, slot, moveType, newSlot, beyond);
    case Interact(target) => InteractIs(s, target);
    case Deploy(_) =>
  }

  // ---------- conservation ----------

  /**
    The messages that keep all catalysts. The others move a catalyst past the grid, take what lies behind the
    grid for one, or use an object that gives one away.
   */
  predicate Conserves(s: State, m: Message)
    requires s.Valid()
  {
    match m
    case Drag(slot, moveType, newSlot, beyond) =>
      var c := SlotAt(s.grid, slot, beyond);
      if !s.deployed || c == Empty then true
      else if moveType == 0 then slot < GRID_SLOTS
      else if moveType != 2 || slot == newSlot then true
      else if slot < GRID_SLOTS then newSlot < GRID_SLOTS || (newSlot == GRID_SLOTS && beyond == c)
      else newSlot > GRID_SLOTS || s.grid[newSlot] == c
    case Interact(target) =>
      target < |s.things| && !s.things[target].marked && s.things[target].noun == Other ==> !s.deployed
    case Deploy(_) => true
  }

  /** Adding something to one of two sides changes the sum. */
  lemma MoreOfOne(a: multiset<Catalyst>, b: multiset<Catalyst>, c: Catalyst)
    ensures a + (b + multiset{c}) != a + b && (a + multiset{c}) + b != a + b
  {
    assert (a + (b + multiset{c}))[c] == (a + b)[c] + 1;
    assert ((a + multiset{c}) + b)[c] == (a + b)[c] + 1;
  }

  /** A slot overwritten keeps the sum exactly if it is overwritten with what it held. */
  lemma OverwriteIff(grid: seq<Catalyst>, i: nat, c: Catalyst, ground: multiset<Catalyst>)
    requires i < |grid|
    ensures Bag(grid[i := c]) + ground == Bag(grid) + ground <==> grid[i] == c
  {
    hide Bag;
    BagSet(grid, i, c);
    if grid[i] == c {
      assert grid[i := c] == grid;
    } else {
      var x := if c != Empty then c else grid[i];
      assert (Bag(grid[i := c]) + One(grid[i]))[x] == (Bag(grid) + One(c))[x];
      assert (Bag(grid[i := c]) + ground)[x] != (Bag(grid) + ground)[x];
    }
  }

  lemma DropConservesIff(s: State, slot: nat, beyond: Catalyst)
    requires s.Valid() && s.deployed && SlotAt(s.grid, slot, beyond) != Empty
    ensures AfterDrop(s, slot, beyond).Total() == s.Total() <==> slot < GRID_SLOTS
  {
    hide Bag, OnGround, ToLoot, FromLoot;
    var c := SlotAt(s.grid, slot, beyond);
    LootRoundTripIff(c);
    GroundGrows(s.things, Dropped(c));
    if slot < GRID_SLOTS {
      BagSet(s.grid, slot, Empty);
      Moved(Bag(s.grid), OnGround(s.things), Bag(s.grid[slot := Empty]), OnGround(s.things + [Dropped(c)]),
            multiset{c});
    } else {
      MoreOfOne(Bag(s.grid), OnGround(s.things), c);
    }
  }

  lemma DragConservesIff(s: State, slot: nat, moveType: nat, newSlot: nat, beyond: Catalyst)
    requires s.Valid()
    ensures AfterDrag(s, slot, moveType, newSlot, beyond).Total() == s.Total() <==>
            Conserves(s, Drag(slot, moveType, newSlot, beyond))
  {
    hide Bag, OnGround, ToLoot, FromLoot;
    var c := SlotAt(s.grid, slot, beyond);
    if s.deployed && c != Empty {
      if moveType == 0 {
        DropConservesIff(s, slot, beyond);
      } else if moveType == 2 && slot != newSlot {
        if slot < GRID_SLOTS && newSlot < GRID_SLOTS {
          BagSwap(s.grid, slot, newSlot);
        } else if slot < GRID_SLOTS {
          OverwriteIff(s.grid, slot, SlotAt(s.grid, newSlot, beyond), OnGround(s.things));
        } else if newSlot < GRID_SLOTS {
          OverwriteIff(s.grid, newSlot, c, OnGround(s.things));
        }
      }
    }
  }

  lemma PickupConserves(s: State, target: nat)
    requires s.Valid() && target < |s.things| && s.things[target].noun == Crystal
    ensures AfterPickup(s, target).Total() == s.Total()
  {
    hide Bag, OnGround;
    var thing, slot := s.things[target], FirstEmpty(s.grid, 0);
    if !thing.marked && slot != GRID_SLOTS {
      var marked := thing.(marked := true);
      GroundSet(s.things, target, marked);
      if thing.loot.Some? {
        var c := FromLoot(thing.loot.value);
        BagSet(s.grid, slot, c);
        Moved(OnGround(s.things), Bag(s.grid), OnGround(s.things[target := marked]), Bag(s.grid[slot := c]),
              multiset{c});
      } else {
        Cancel(OnGround(s.things[target := marked]), OnGround(s.things), multiset{});
      }
    }
  }

  /** Replacing an object by one that holds as much changes nothing. */
  lemma SameGround(things: seq<Thing>, i: nat, t: Thing)
    requires i < |things| && t.Holds() == things[i].Holds()
    ensures OnGround(things[i := t]) == OnGround(things)
  {
    hide OnGround, Thing.Holds;
    GroundSet(things, i, t);
    Cancel(OnGround(things[i := t]), OnGround(things), t.Holds());
  }

  lemma GiftGrows(things: seq<Thing>)
    ensures OnGround(things + [ORB, Dropped(GIFT)]) == OnGround(things) + multiset{GIFT}
  {
    hide OnGround, ToLoot, FromLoot;
    LootRoundTripIff(GIFT);
    GroundGrows(things, ORB);
    GroundGrows(things + [ORB], Dropped(GIFT));
    assert things + [ORB] + [Dropped(GIFT)] == things + [ORB, Dropped(GIFT)];
  }

  lemma InteractConservesIff(s: State, target: nat)
    requires s.Valid()
    ensures AfterInteract(s, target).Total() == s.Total() <==> Conserves(s, Interact(target))
  {
    hide Bag, OnGround, AfterPickup;
    if target < |s.things| && !s.things[target].marked {
      var thing := s.things[target];
      var used := thing.(timesUsed := thing.timesUsed + 1);
      SameGround(s.things, target, used);
      var t := s.(things := s.things[target := used]);
      match thing.noun
      case Crystal => PickupConserves(t, target);
      case Loot => SameGround(t.things, target, used.(marked := true));
      case Other =>
        if s.deployed {
          GiftGrows(t.things);
          MoreOfOne(Bag(s.grid), OnGround(s.things), GIFT);
        }
    }
  }

  /** A message keeps the catalysts in grid and on the ground exactly if it is one of those. */
  lemma StepConservesIff(s: State, m: Message)
    requires s.Valid()
    ensures Step(s, m).Total() == s.Total() <==> Conserves(s, m)
  {
    hide AfterDrag, AfterInteract;
    match m
    case Drag(slot, moveType, newSlot, beyond) => DragConservesIff(s, slot, moveType, newSlot, beyond);
    case Interact(target) => InteractConservesIff(s, target);
    case Deploy(_) =>
  }

  /** Every message of the run is one that conserves when it comes. */
  predicate AllConserve(s: State, ms: seq<Message>)
    requires s.Valid()
    decreases ms
  {
    ms != [] ==> Conserves(s, ms[0]) && AllConserve(Step(s, ms[0]), ms[1..])
  }

  /** Over a whole run of such messages nothing is lost and nothing comes from nowhere. */
  lemma {:induction false} RunConserves(s: State, ms: seq<Message>)
    requires s.Valid() && AllConserve(s, ms)
    ensures Run(s, ms).Total() == s.Total()
    decreases ms
  {
    hide Step, Conserves, State.Total;
    if ms != [] {
      StepConservesIff(s, ms[0]);
      RunConserves(Step(s, ms[0]), ms[1..]);
    }
  }

  // ---------- every object is picked up at most once ----------

  /** The object whose catalyst a message puts into the grid, if any. */
  function Receipt(s: State, m: Message): seq<nat>
    requires s.Valid()
  {
    if m.Interact? && m.target < |s.things| && s.things[m.target].noun == Crystal && s.things[m.target].loot.Some?
      && !s.things[m.target].marked && FirstEmpty(s.grid, 0) < GRID_SLOTS
    then [m.target] else []
  }

  function Receipts(s: State, ms: seq<Message>): seq<nat>
    requires s.Valid()
    decreases ms
  {
    if ms == [] then [] else Receipt(s, ms[0]) + Receipts(Step(s, ms[0]), ms[1..])
  }

  /** Objects keep their place, their noun and their loot, and once marked stay marked. */
  lemma StepKeepsThings(s: State, m: Message)
    requires s.Valid()
    ensures var t := Step(s, m);
            |s.things| <= |t.things| && forall i :: 0 <= i < |s.things| ==>
              && t.things[i].noun == s.things[i].noun && t.things[i].loot == s.things[i].loot
              && (s.things[i].marked ==> t.things[i].marked)
  {}

  lemma ReceiptIs(s: State, m: Message)
    requires s.Valid()
    ensures forall i :: i in Receipt(s, m) ==>
              && i < |s.things| && !s.things[i].marked && s.things[i].loot.Some?
              && i < |Step(s, m).things| && Step(s, m).things[i].marked
              && Step(s, m).grid == s.grid[FirstEmpty(s.grid, 0) := FromLoot(s.things[i].loot.value)]
    ensures NoDup(Receipt(s, m))
  {}

  /** Catalysts are received exactly by the messages that use an object and change the grid. */
  lemma ReceiptIff(s: State, m: Message)
    requires s.Valid()
    ensures Receipt(s, m) == if m.Interact? && Step(s, m).grid != s.grid then [m.target] else []
  {
    if Receipt(s, m) != [] {
      var k := FirstEmpty(s.grid, 0);
      assert Step(s, m).grid[k] != s.grid[k];
    }
  }

  /** Over any run whatever no object is picked up twice, and a marked one never. */
  lemma {:induction false} ReceivedOnce(s: State, ms: seq<Message>)
    requires s.Valid()
    ensures NoDup(Receipts(s, ms))
    ensures forall i :: i in Receipts(s, ms) && i < |s.things| ==> !s.things[i].marked
    decreases ms
  {
    hide Step, Receipt, NoDup;
    if ms == [] {
      NoReceipts();
    } else {
      var t := Step(s, ms[0]);
      StepKeepsThings(s, ms[0]);
      ReceiptIs(s, ms[0]);
      ReceivedOnce(t, ms[1..]);
      NoDupJoin(Receipt(s, ms[0]), Receipts(t, ms[1..]));
    }
  }

  lemma NoReceipts()
    ensures NoDup<nat>([])
  {}

  /** A catalyst that was dropped lies there as it was, over any run, until it is picked up equal. */
  lemma {:induction false} DroppedStays(s: State, slot: nat, beyond: Catalyst, ms: seq<Message>)
    requires s.Valid() && s.deployed && SlotAt(s.grid, slot, beyond) != Empty
    ensures var c, k := SlotAt(s.grid, slot, beyond), |s.things|;
            var t := Run(AfterDrop(s, slot, beyond), ms);
            k < |t.things| && t.things[k].loot.Some? && FromLoot(t.things[k].loot.value) == c
  {
    hide Run, ToLoot, FromLoot;
    LootRoundTripIff(SlotAt(s.grid, slot, beyond));
    RunKeepsThings(AfterDrop(s, slot, beyond), ms);
  }

  lemma {:induction false} RunKeepsThings(s: State, ms: seq<Message>)
    requires s.Valid()
    ensures var t := Run(s, ms);
            |s.things| <= |t.things| && forall i :: 0 <= i < |s.things| ==>
              && t.things[i].noun == s.things[i].noun && t.things[i].loot == s.things[i].loot
              && (s.things[i].marked ==> t.things[i].marked)
    decreases ms
  {
    hide Step;
    if ms != [] {
      StepKeepsThings(s, ms[0]);
      RunKeepsThings(Step(s, ms[0]), ms[1..]);
    }
  }

  /** One player in an instance. */
  class Instance {
    const player: Player
    var deployed: bool
    var things: seq<Thing>

    constructor ()
      ensures Valid() && fresh(player) && fresh(player.catalysts) && fresh(player.bonuses)
      ensures things == [] && deployed && Total() == multiset{}
    {
      hide Bag;
      player := new Player();
      deployed, things := true, [];
      new;
      NoCatalysts();
    }

    static lemma NoCatalysts()
      ensures Bag([Empty, Empty, Empty, Empty, Empty, Empty, Empty, Empty, Empty]) == multiset{}
    {
      var grid := seq(GRID_SLOTS, _ => Empty);
      assert grid == [Empty, Empty, Empty, Empty, Empty, Empty, Empty, Empty, Empty];
      NoneInBag(grid);
    }

    static lemma {:induction false} NoneInBag(grid: seq<Catalyst>)
      requires forall i :: 0 <= i < |grid| ==> grid[i] == Empty
      ensures Bag(grid) == multiset{}
    {
      if grid != [] { NoneInBag(grid[1..]); }
    }

    ghost predicate Valid()
      reads this, player.catalysts, player.bonuses
    {
      player.Valid()
    }

    ghost function Now(): State
      reads this, player.catalysts
    {
      State(player.Grid(), things, deployed)
    }

    ghost function Total(): multiset<Catalyst>
      reads this, player.catalysts
    {
      Now().Total()
    }

    /** A catalyst leaves its slot and lies on the ground as a new object. */
    method DropCatalyst(slot: nat, beyond: Catalyst)
      requires Valid()
      modifies this`things, player.catalysts, player.bonuses
      ensures Valid() && Now() == AfterDrop(old(Now()), slot, beyond)
      ensures slot != GRID_SLOTS ==> Total() == old(Total())
    {
      hide Bag, OnGround, Thing.Holds, ToLoot, FromLoot;
      if !deployed {
        return;
      }
      var catalyst := player.GetCatalyst(slot, beyond);
      if catalyst == Empty {
        return;
      }
      DropConservesIff(Now(), slot, beyond);
      player.SetCatalyst(Empty, slot);
      things := things + [Thing(Crystal, Some(ToLoot(catalyst)), false, 0)];
    }

    /** The catalyst of an object goes to the first empty slot; without one, the object stays. */
    method PickupCatalyst(target: nat)
      requires Valid() && target < |things|
      modifies this`things, player.catalysts, player.bonuses
      ensures Valid() && Now() == AfterPickup(old(Now()), target)
      ensures old(things[target].noun) == Crystal ==> Total() == old(Total())
    {
      hide Bag, OnGround, Thing.Holds, ToLoot, FromLoot;
      if things[target].noun == Crystal { PickupConserves(Now(), target); }
      if things[target].marked {
        return;
      }
      var slot := player.GetOpenCatalystSlot();
      FirstEmptyIs(player.Grid(), slot);
      if slot != NO_SLOT {
        var loot := things[target].loot;
        things := things[target := things[target].(marked := true)];
        if loot.None? {
          return;
        }
        var catalyst := FromLoot(loot.value);
        player.SetCatalyst(catalyst, slot);
      }
    }

    static lemma FirstEmptyIs(grid: seq<Catalyst>, slot: nat)
      requires |grid| == GRID_SLOTS
      requires slot < GRID_SLOTS ==> grid[slot] == Empty && forall i :: 0 <= i < slot ==> grid[i] != Empty
      requires slot >= GRID_SLOTS ==> slot == NO_SLOT && Empty !in grid
      ensures FirstEmpty(grid, 0) == if slot == NO_SLOT then GRID_SLOTS else slot
    {
      var k := FirstEmpty(grid, 0);
      if k < GRID_SLOTS { assert grid[k] in grid; }
    }

    /** `PickupLoot`: the object is marked, what it held is not part of this model. */
    method PickupLoot(target: nat)
      requires Valid() && target < |things|
      modifies this`things
      ensures Valid() && things == old(things)[target := old(things[target]).(marked := true)]
    {
      if things[target].marked {
        return;
      }
      things := things[target := things[target].(marked := true)];
    }

    /** `DropLoot` with orbs and catalysts, for the deployed character. */
    method DropLoot()
      requires Valid()
      modifies this`things
      ensures Valid() && things == if deployed then old(things) + [ORB, Dropped(GIFT)] else old(things)
    {
      if !deployed {
        return;
      }
      things := things + [Thing(Other, None, false, 0)];
      things := things + [Thing(Crystal, Some(ToLoot(Made(ATTACK_SPEED, COMMON, false))), false, 0)];
    }

    /** An object that is marked, or not there, is left alone, so nothing is picked up twice. */
    method InteractWithObject(target: nat)
      requires Valid()
      modifies this`things, player.catalysts, player.bonuses
      ensures Valid() && Now() == Step(old(Now()), Interact(target)) && Interacted(old(Now()), target, Now())
      ensures Total() == old(Total()) <==> old(Conserves(Now(), Interact(target)))
    {
      hide Bag, OnGround, Thing.Holds, ToLoot, FromLoot, State.Total, Dragged, Interacted;
      StepConservesIff(Now(), Interact(target));
      InteractIs(Now(), target);
      if target >= |things| || things[target].marked {
        return;
      }
      var thing := things[target];
      things := things[target := thing.(timesUsed := thing.timesUsed + 1)];
      if thing.noun == Loot {
        PickupLoot(target);
      } else if thing.noun == Crystal {
        PickupCatalyst(target);
      } else {
        DropLoot();
      }
    }

    /** `OnCrystalDragMessage`: drop a catalyst, or exchange two slots. */
    method DragCatalyst(slot: nat, moveType: nat, newSlot: nat, beyond: Catalyst)
      requires Valid()
      modifies this`things, player.catalysts, player.bonuses
      ensures Valid() && Now() == Step(old(Now()), Drag(slot, moveType, newSlot, beyond))
      ensures Dragged(old(Now()), slot, moveType, newSlot, beyond, Now())
      ensures Total() == old(Total()) <==> old(Conserves(Now(), Drag(slot, moveType, newSlot, beyond)))
    {
      hide Bag, OnGround, Thing.Holds, ToLoot, FromLoot, State.Total, Dragged, Interacted;
      StepConservesIff(Now(), Drag(slot, moveType, newSlot, beyond));
      DragIs(Now(), slot, moveType, newSlot, beyond);
      if !deployed {
        return;
      }
      var catalyst := player.GetCatalyst(slot, beyond);
      if catalyst == Empty {
        return;
      }
      if moveType == 0 {
        DropCatalyst(slot, beyond);
      } else if moveType == 2 {
        if slot != newSlot {
          var other := player.GetCatalyst(newSlot, beyond);
          player.SetCatalyst(catalyst, newSlot);
          player.SetCatalyst(other, slot);
        }
      }
    }
  }
}
