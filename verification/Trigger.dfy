/**
  Trigger volumes: which of the enter, stay and exit callbacks fire for the objects in the volume.
  The states are kept in the order of the objects' addresses.
 */
module Trigger {

  datatype Event = Enter(o: nat) | Stay(o: nat) | Exit(o: nat)

  /** An object handed to the trigger; `entered` is false until it was seen within the radius. */
  datatype Entry = Entry(o: nat, entered: bool)

  datatype Ticked = Ticked(states: seq<Entry>, events: seq<Event>, overrun: bool)

  predicate Sorted(s: seq<Entry>) {
    forall i, j :: 0 <= i < j < |s| ==> s[i].o < s[j].o
  }

  /**
    One pass over the states. `erase` already returns the next element and the loop then steps past it, so the
    element behind an erased one is left alone; behind the last one the loop steps past the end.
   */
  function Tick(s: seq<Entry>, inside: set<nat>): Ticked {
    if s == [] then Ticked([], [], false)
    else
      var o, rest := s[0].o, s[1..];
      if s[0].entered && o !in inside then
        if rest == [] then Ticked([], [Exit(o)], true)
        else
          var t := Tick(rest[1..], inside);
          Ticked([rest[0]] + t.states, [Exit(o)] + t.events, t.overrun)
      else
        var t := Tick(rest, inside);
        if s[0].entered then Ticked([s[0]] + t.states, [Stay(o)] + t.events, t.overrun)
        else if o in inside then Ticked([Entry(o, true)] + t.states, [Enter(o)] + t.events, t.overrun)
        else Ticked([s[0]] + t.states, t.events, t.overrun)
  }

  predicate Leaves(e: Entry, inside: set<nat>) { e.entered && e.o !in inside }

  /** An entry is passed over exactly when the one before it was looked at and erased. */
  predicate Visited(s: seq<Entry>, inside: set<nat>, i: nat)
    requires i < |s|
  {
    i == 0 || !(Visited(s, inside, i - 1) && Leaves(s[i - 1], inside))
  }

  /** Dropping a first element that stays, or an erased one with its neighbour, does not change who is visited. */
  lemma {:induction false} VisitedShift(s: seq<Entry>, inside: set<nat>, k: nat, i: nat)
    requires k == (if s != [] && Leaves(s[0], inside) then 2 else 1) && i + k < |s|
    ensures Visited(s, inside, i + k) == Visited(s[k..], inside, i)
  {
    if i > 0 {
      VisitedShift(s, inside, k, i - 1);
      assert s[k..][i - 1] == s[i - 1 + k];
    } else if k == 2 {
      assert !Visited(s, inside, 1);
    }
  }

  predicate Fires(events: seq<Event>, o: nat) {
    exists k :: 0 <= k < |events| && events[k].o == o
  }

  /** How many entries the first step deals with. */
  function Stride(s: seq<Entry>, inside: set<nat>): nat {
    if s != [] && Leaves(s[0], inside) then 2 else 1
  }

  /** The callback for the first entry. */
  function First(e: Entry, inside: set<nat>): seq<Event> {
    if e.entered then if e.o in inside then [Stay(e.o)] else [Exit(e.o)]
    else if e.o in inside then [Enter(e.o)] else []
  }

  lemma TickStep(s: seq<Entry>, inside: set<nat>)
    requires s != []
    ensures var k, t := Stride(s, inside), Tick(s, inside);
            && t.overrun == (k > |s| || Tick(s[k..], inside).overrun)
            && t.events == First(s[0], inside) + if k > |s| then [] else Tick(s[k..], inside).events
  {
    if Stride(s, inside) == 2 && |s| > 1 { assert s[1..][1..] == s[2..]; }
  }

  /** The loop steps past the end exactly when the last entry is visited and leaves. */
  lemma {:induction false} OverrunIff(s: seq<Entry>, inside: set<nat>)
    ensures Tick(s, inside).overrun <==> s != [] && Visited(s, inside, |s| - 1) && Leaves(s[|s| - 1], inside)
  {
    hide Tick;
    if s != [] {
      var k := Stride(s, inside);
      TickStep(s, inside);
      if k < |s| {
        OverrunIff(s[k..], inside);
        VisitedShift(s, inside, k, |s| - 1 - k);
      } else if k == |s| {
        EmptyTick(inside);
      }
    } else {
      EmptyTick(inside);
    }
  }

  lemma EmptyTick(inside: set<nat>)
    ensures Tick([], inside) == Ticked([], [], false)
  {}

  /** Exactly the entries that are visited and either had entered or are inside now cause a callback. */
  lemma {:induction false} FiresIff(s: seq<Entry>, inside: set<nat>, i: nat)
    requires Sorted(s) && i < |s|
    ensures Fires(Tick(s, inside).events, s[i].o) <==> Visited(s, inside, i) && (s[i].entered || s[i].o in inside)
  {
    hide Tick;
    var k := Stride(s, inside);
    TickStep(s, inside);
    var fired := First(s[0], inside);
    if fired != [] { assert fired[0].o == s[0].o; }
    if k <= |s| {
      var rest := s[k..];
      FiresJoins(fired, Tick(rest, inside).events, s[i].o);
      if i < k {
        NeverFires(s, k, inside, i);
      } else {
        FiresIff(rest, inside, i - k);
        VisitedShift(s, inside, k, i - k);
        assert s[0].o != s[i].o;
      }
    } else {
      assert fired + [] == fired;
    }
  }

  predicate Holds(s: seq<Entry>, o: nat) {
    exists k :: 0 <= k < |s| && s[k].o == o
  }

  /** What the first step leaves of the entries it deals with. */
  function Rest(s: seq<Entry>, inside: set<nat>): seq<Entry>
    requires s != []
  {
    if Leaves(s[0], inside) then if |s| == 1 then [] else [s[1]]
    else [Entry(s[0].o, s[0].entered || s[0].o in inside)]
  }

  lemma KeptStep(s: seq<Entry>, inside: set<nat>)
    requires s != []
    ensures var k := Stride(s, inside);
            Tick(s, inside).states == Rest(s, inside) + if k > |s| then [] else Tick(s[k..], inside).states
  {
    if Stride(s, inside) == 2 && |s| > 1 { assert s[1..][1..] == s[2..]; }
  }

  /** The entries kept are exactly those that do not leave and those passed over. */
  lemma {:induction false} StaysIff(s: seq<Entry>, inside: set<nat>, i: nat)
    requires Sorted(s) && i < |s|
    ensures Holds(Tick(s, inside).states, s[i].o) <==> !(Visited(s, inside, i) && Leaves(s[i], inside))
  {
    hide Tick;
    var k := Stride(s, inside);
    KeptStep(s, inside);
    var kept := Rest(s, inside);
    assert kept != [] ==> kept[0].o == s[k - 1].o;
    if k <= |s| {
      var rest := s[k..];
      HoldsJoins(kept, Tick(rest, inside).states, s[i].o);
      if i < k {
        NeverFires(s, k, inside, i);
      } else {
        StaysIff(rest, inside, i - k);
        VisitedShift(s, inside, k, i - k);
        assert s[k - 1].o != s[i].o;
      }
    }
  }

  lemma HoldsJoins(a: seq<Entry>, b: seq<Entry>, o: nat)
    ensures Holds(a + b, o) <==> Holds(a, o) || Holds(b, o)
  {
    if k :| 0 <= k < |b| && b[k].o == o { assert (a + b)[|a| + k].o == o; }
    if k :| 0 <= k < |a| && a[k].o == o { assert (a + b)[k].o == o; }
  }

  lemma NeverFires(s: seq<Entry>, k: nat, inside: set<nat>, i: nat)
    requires Sorted(s) && i < k <= |s|
    ensures !Fires(Tick(s[k..], inside).events, s[i].o) && !Holds(Tick(s[k..], inside).states, s[i].o)
  {
    hide Tick;
    TickShrinks(s[k..], inside);
  }

  /**
    Which callback an entry causes and what becomes of it: visited entries enter, stay or exit as they were and are
    inside, and remember whether they are; one that is passed over causes none and is left as it was.
   */
  lemma {:induction false} TickIs(s: seq<Entry>, inside: set<nat>, i: nat)
    requires Sorted(s) && i < |s|
    ensures var t, o, visited := Tick(s, inside), s[i].o, Visited(s, inside, i);
            && (Enter(o) in t.events <==> visited && !s[i].entered && o in inside)
            && (Stay(o) in t.events <==> visited && s[i].entered && o in inside)
            && (Exit(o) in t.events <==> visited && s[i].entered && o !in inside)
            && (visited && !Leaves(s[i], inside) ==> Entry(o, o in inside) in t.states)
            && (!visited ==> s[i] in t.states)
  {
    hide Tick;
    var k, o := Stride(s, inside), s[i].o;
    TickStep(s, inside);
    KeptStep(s, inside);
    if i >= k {
      TickIs(s[k..], inside, i - k);
      VisitedShift(s, inside, k, i - k);
      assert s[k..][i - k] == s[i] && s[0].o != o;
    } else if k <= |s| {
      NeverFires(s, k, inside, i);
      assert forall e :: e in Tick(s[k..], inside).events ==> e.o != o;
    }
  }

  /** The callbacks come in the order of the objects, at most one for each. */
  lemma {:induction false} EventsRise(s: seq<Entry>, inside: set<nat>)
    requires Sorted(s)
    ensures var events := Tick(s, inside).events;
            forall i, j :: 0 <= i < j < |events| ==> events[i].o < events[j].o
  {
    hide Tick;
    if s != [] {
      var k := Stride(s, inside);
      TickStep(s, inside);
      if k <= |s| {
        EventsRise(s[k..], inside);
        TickShrinks(s[k..], inside);
      }
    } else {
      EmptyTick(inside);
    }
  }

  lemma FiresJoins(a: seq<Event>, b: seq<Event>, o: nat)
    ensures Fires(a + b, o) <==> Fires(a, o) || Fires(b, o)
  {
    if k :| 0 <= k < |b| && b[k].o == o { assert (a + b)[|a| + k].o == o; }
    if k :| 0 <= k < |a| && a[k].o == o { assert (a + b)[k].o == o; }
  }

  /** Where an object stands after a history of callbacks: inside or not; nothing if the history is out of order. */
  datatype Phase = Outside | Inside | Broken

  function Next(p: Phase, e: Event): Phase {
    if e.Enter? && p == Outside then Inside
    else if e.Stay? && p == Inside then Inside
    else if e.Exit? && p == Inside then Outside
    else Broken
  }

  function PhaseOf(trace: seq<Event>, o: nat): Phase {
    if trace == [] then Outside
    else
      var last, before := trace[|trace| - 1], PhaseOf(trace[..|trace| - 1], o);
      if last.o == o then Next(before, last) else before
  }

  lemma {:induction false} PhaseSplit(a: seq<Event>, b: seq<Event>, o: nat)
    requires forall i :: 0 <= i < |b| ==> b[i].o != o
    ensures PhaseOf(a + b, o) == PhaseOf(a, o)
  {
    if b == [] {
      assert a + b == a;
    } else {
      PhaseSplit(a, b[..|b| - 1], o);
      assert (a + b)[..|a + b| - 1] == a + b[..|b| - 1];
    }
  }

  lemma PhaseNext(trace: seq<Event>, e: Event)
    ensures PhaseOf(trace + [e], e.o) == Next(PhaseOf(trace, e.o), e)
    ensures forall o :: o != e.o ==> PhaseOf(trace + [e], o) == PhaseOf(trace, o)
  {
    assert (trace + [e])[..|trace|] == trace;
  }

  /** The phase a list of states assigns to an object. */
  function PhaseIn(s: seq<Entry>, o: nat): Phase {
    if s == [] then Outside
    else if s[0].o == o then if s[0].entered then Inside else Outside
    else PhaseIn(s[1..], o)
  }

  lemma {:induction false} PhaseBefore(s: seq<Entry>, o: nat)
    requires Sorted(s) && (s != [] ==> o < s[0].o)
    ensures PhaseIn(s, o) == Outside
  {
    if s != [] {
      assert s[0].o != o;
      PhaseBefore(s[1..], o);
    }
  }

  /** A pass keeps the order, drops objects only, and fires callbacks for objects of the list only. */
  lemma {:induction false} TickShrinks(s: seq<Entry>, inside: set<nat>)
    requires Sorted(s)
    ensures var t := Tick(s, inside);
            && Sorted(t.states)
            && (s != [] ==> forall i :: 0 <= i < |t.states| ==> s[0].o <= t.states[i].o)
            && (s != [] ==> forall i :: 0 <= i < |t.events| ==> s[0].o <= t.events[i].o)
            && (s == [] ==> t.states == [] && t.events == [])
  {
    if s != [] {
      var rest := s[1..];
      if s[0].entered && s[0].o !in inside {
        if rest != [] { TickShrinks(rest[1..], inside); }
      } else {
        TickShrinks(rest, inside);
      }
    }
  }

  /** The history stays in order through a pass, and ends in the phases the new states say. */
  lemma {:induction false} TickKeepsOrder(s: seq<Entry>, inside: set<nat>, trace: seq<Event>, o: nat)
    requires Sorted(s) && PhaseOf(trace, o) == PhaseIn(s, o)
    ensures var t := Tick(s, inside); PhaseOf(trace + t.events, o) == PhaseIn(t.states, o)
  {
    var t := Tick(s, inside);
    if s == [] {
      assert trace + [] == trace;
    } else {
      var rest := s[1..];
      if s[0].entered && s[0].o !in inside {
        Fired(s, trace, Exit(s[0].o), false, o);
        if rest != [] {
          var more := Tick(rest[1..], inside);
          assert trace + t.events == (trace + [Exit(s[0].o)]) + more.events;
          TickShrinks(rest[1..], inside);
          if o == rest[0].o {
            PhaseSplit(trace + [Exit(s[0].o)], more.events, o);
          } else {
            TickKeepsOrder(rest[1..], inside, trace + [Exit(s[0].o)], o);
          }
        }
      } else {
        var more := Tick(rest, inside);
        TickShrinks(rest, inside);
        if s[0].entered || s[0].o in inside {
          var e := if s[0].entered then Stay(s[0].o) else Enter(s[0].o);
          Fired(s, trace, e, true, o);
          assert trace + t.events == (trace + [e]) + more.events;
          if o == s[0].o {
            PhaseSplit(trace + [e], more.events, o);
          } else {
            TickKeepsOrder(rest, inside, trace + [e], o);
          }
        } else {
          if o == s[0].o {
            PhaseSplit(trace, more.events, o);
          } else {
            TickKeepsOrder(rest, inside, trace, o);
          }
        }
      }
    }
  }

  /** One callback for the first object of a list. */
  lemma Fired(s: seq<Entry>, trace: seq<Event>, e: Event, entered: bool, o: nat)
    requires s != [] && Sorted(s) && PhaseOf(trace, o) == PhaseIn(s, o) && e.o == s[0].o
    requires entered <==> !e.Exit?
    requires s[0].entered <==> !e.Enter?
    ensures o == s[0].o ==> PhaseOf(trace + [e], o) == if entered then Inside else Outside
    ensures o != s[0].o ==> PhaseOf(trace + [e], o) == PhaseIn(s[1..], o)
    ensures o == s[0].o ==> PhaseIn(s[1..], o) == Outside
  {
    PhaseNext(trace, e);
    if o == s[0].o { PhaseBefore(s[1..], o); }
  }

  /** In an unbroken history an object that enters twice has left in between. */
  lemma {:induction false} ExitBetween(trace: seq<Event>, o: nat, i: nat, j: nat)
    requires PhaseOf(trace, o) != Broken
    requires i < j < |trace| && trace[i] == Enter(o) && trace[j] == Enter(o)
    ensures exists k :: i < k < j && trace[k] == Exit(o)
    decreases |trace|
  {
    var front := trace[..|trace| - 1];
    if j < |trace| - 1 {
      ExitBetween(front, o, i, j);
      var k :| i < k < j && front[k] == Exit(o);
      assert trace[k] == Exit(o);
    } else {
      LeftSince(front, o, i);
      var k :| i < k < |front| && front[k] == Exit(o);
      assert trace[k] == Exit(o);
    }
  }

  /** If an object that entered is outside, it left since then. */
  lemma {:induction false} LeftSince(trace: seq<Event>, o: nat, i: nat)
    requires PhaseOf(trace, o) == Outside && i < |trace| && trace[i] == Enter(o)
    ensures exists k :: i < k < |trace| && trace[k] == Exit(o)
  {
    var front := trace[..|trace| - 1];
    if trace[|trace| - 1] != Exit(o) {
      LeftSince(front, o, i);
      var k :| i < k < |front| && front[k] == Exit(o);
      assert trace[k] == Exit(o);
    }
  }

  /** Stay and exit callbacks only come for an object that entered and has not left since. */
  lemma {:induction false} EnteredBefore(trace: seq<Event>, o: nat, j: nat)
    requires PhaseOf(trace, o) != Broken && j < |trace| && (trace[j] == Stay(o) || trace[j] == Exit(o))
    ensures exists i :: 0 <= i < j && trace[i] == Enter(o) && forall k :: i < k < j ==> trace[k] != Exit(o)
    decreases |trace|
  {
    var front := trace[..|trace| - 1];
    if j < |trace| - 1 {
      EnteredBefore(front, o, j);
      var i :| 0 <= i < j && front[i] == Enter(o) && forall k :: i < k < j ==> front[k] != Exit(o);
      assert trace[i] == Enter(o) && forall k :: i < k < j ==> trace[k] == front[k];
    } else {
      CameIn(front, o);
      var i :| 0 <= i < |front| && front[i] == Enter(o) && forall k :: i < k < |front| ==> front[k] != Exit(o);
      assert trace[i] == Enter(o) && forall k :: i < k < j ==> trace[k] == front[k];
    }
  }

  lemma {:induction false} CameIn(trace: seq<Event>, o: nat)
    requires PhaseOf(trace, o) == Inside
    ensures exists i :: 0 <= i < |trace| && trace[i] == Enter(o) && forall k :: i < k < |trace| ==> trace[k] != Exit(o)
  {
    var front, last := trace[..|trace| - 1], trace[|trace| - 1];
    if last == Enter(o) {
      assert trace[|trace| - 1] == Enter(o);
    } else {
      CameIn(front, o);
      var i :| 0 <= i < |front| && front[i] == Enter(o) && forall k :: i < k < |front| ==> front[k] != Exit(o);
      assert trace[i] == Enter(o) && forall k :: i < k < |front| ==> trace[k] == front[k];
    }
  }

  class TriggerVolume {
    var states: seq<Entry>
    var owner: nat
    /** Every callback since the volume was made. */
    ghost var trace: seq<Event>

    constructor (owner: nat)
      ensures Valid() && states == [] && trace == [] && this.owner == owner
    {
      states, this.owner, trace := [], owner, [];
    }

    /** The history of every object is in order, and the states say who is inside. */
    ghost predicate Valid()
      reads this
    {
      Sorted(states) && forall o: nat :: PhaseOf(trace, o) == PhaseIn(states, o)
    }

    /** A new object starts outside; one that is already there keeps its state. */
    method AddObject(o: nat)
      requires Valid()
      modifies this`states
      ensures Valid()
      ensures forall e :: e in states <==>
                e in old(states) || (e == Entry(o, false) && o != owner && forall i :: 0 <= i < |old(states)| ==>
                  old(states)[i].o != o)
    {
      if o == owner {
        return;
      }
      var k := 0;
      while k < |states| && states[k].o < o
        invariant 0 <= k <= |states| && forall i :: 0 <= i < k ==> states[i].o < o
      {
        k := k + 1;
      }
      if k == |states| || states[k].o != o {
        Inserted(states, k, o);
        states := states[..k] + [Entry(o, false)] + states[k..];
      }
    }

    /** `OnTick`. The flag tells that the loop stepped past the end, which happens when the last entry is erased. */
    method OnTick(inside: set<nat>) returns (events: seq<Event>, overrun: bool)
      requires Valid()
      modifies this
      ensures Valid() && owner == old(owner)
      ensures Ticked(states, events, overrun) == Tick(old(states), inside) && trace == old(trace) + events
    {
      ghost var was, before := states, trace;
      events, overrun := Pass(inside);
      trace := trace + events;
      TickShrinks(was, inside);
      forall o: nat
        ensures PhaseOf(trace, o) == PhaseIn(states, o)
      {
        TickKeepsOrder(was, inside, before, o);
      }
    }

    /** The loop itself. */
    method Pass(inside: set<nat>) returns (events: seq<Event>, overrun: bool)
      modifies this`states
      ensures Ticked(states, events, overrun) == Tick(old(states), inside)
    {
      hide Joined;
      events, overrun := [], false;
      JoinedEnds(states, [], Tick(states, inside));
      var it := 0;
      while it < |states|
        invariant 0 <= it <= |states| && !overrun
        invariant Tick(old(states), inside) == Joined(states[..it], events, Tick(states[it..], inside))
        decreases |states| - it
      {
        var o := states[it].o;
        ghost var left, rest := states[..it], states[it + 1..];
        assert states[it..] == [states[it]] + rest && states[it..][1..] == rest;
        if !states[it].entered {
          if o in inside {
            JoinedOnce(left, events, Entry(o, true), [Enter(o)], Tick(rest, inside));
            events := events + [Enter(o)];
            states := states[it := Entry(o, true)];
            assert states[it + 1..] == rest && states[..it + 1] == left + [Entry(o, true)];
          } else {
            JoinedOnce(left, events, states[it], [], Tick(rest, inside));
            assert events + [] == events && states[..it + 1] == left + [states[it]];
          }
        } else if o in inside {
          JoinedOnce(left, events, states[it], [Stay(o)], Tick(rest, inside));
          events := events + [Stay(o)];
          assert states[..it + 1] == left + [states[it]];
        } else {
          if rest != [] { JoinedOnce(left, events, rest[0], [Exit(o)], Tick(rest[1..], inside)); }
          JoinedEnds(left, events, Ticked([], [Exit(o)], true));
          events := events + [Exit(o)];
          states := states[..it] + states[it + 1..];
          assert states[it..] == rest && states[..it] == left;
          if it == |states| {
            overrun := true;
            assert states == left;
            return;
          }
          assert states[..it + 1] == left + [rest[0]] && states[it + 1..] == rest[1..];
        }
        it := it + 1;
      }
      assert states[..|states|] == states;
      JoinedEnds(states, events, Ticked([], [], false));
    }
  }

  /** What a pass has done so far, before what is still to come. */
  function Joined(states: seq<Entry>, events: seq<Event>, t: Ticked): Ticked {
    Ticked(states + t.states, events + t.events, t.overrun)
  }

  lemma JoinedOnce(states: seq<Entry>, events: seq<Event>, e: Entry, fired: seq<Event>, t: Ticked)
    ensures Joined(states, events, Ticked([e] + t.states, fired + t.events, t.overrun)) == Joined(states + [e],
      events + fired, t)
    ensures Joined(states, events, Ticked([e] + t.states, t.events, t.overrun)) == Joined(states + [e], events, t)
  {
    assert states + ([e] + t.states) == (states + [e]) + t.states;
    assert events + (fired + t.events) == (events + fired) + t.events;
  }

  lemma JoinedEnds(states: seq<Entry>, events: seq<Event>, t: Ticked)
    ensures states[..0] == [] && states[0..] == states && Joined([], [], t) == t
    ensures t.states == [] ==> Joined(states, events, t) == Ticked(states, events + t.events, t.overrun)
  {
    assert [] + t.states == t.states && [] + t.events == t.events;
    assert states + [] == states;
  }

  lemma {:induction false} AddedOutside(s: seq<Entry>, k: nat, o: nat, x: nat)
    requires k <= |s| && forall i :: 0 <= i < |s| ==> s[i].o != o
    ensures PhaseIn(s[..k] + [Entry(o, false)] + s[k..], x) == PhaseIn(s, x)
  {
    var t := s[..k] + [Entry(o, false)] + s[k..];
    if k == 0 {
      assert t[1..] == s;
      if x == o { NotThere(s, o); }
    } else {
      AddedOutside(s[1..], k - 1, o, x);
      assert t[1..] == s[1..][..k - 1] + [Entry(o, false)] + s[1..][k - 1..];
    }
  }

  lemma InsertedSorted(s: seq<Entry>, k: nat, o: nat)
    requires Sorted(s) && k <= |s|
    requires forall i :: 0 <= i < k ==> s[i].o < o
    requires k < |s| ==> s[k].o > o
    ensures Sorted(s[..k] + [Entry(o, false)] + s[k..])
    ensures forall i :: 0 <= i < |s| ==> s[i].o != o
  {
    forall i | k <= i < |s|
      ensures s[i].o > o
    {
      if i > k { assert s[k].o < s[i].o; }
    }
  }

  lemma MembersOf(a: seq<Entry>, x: Entry, b: seq<Entry>)
    ensures forall e :: e in a + [x] + b <==> e in a + b || e == x
  {}

  lemma Inserted(s: seq<Entry>, k: nat, o: nat)
    requires Sorted(s) && k <= |s|
    requires forall i :: 0 <= i < k ==> s[i].o < o
    requires k < |s| ==> s[k].o > o
    ensures var t := s[..k] + [Entry(o, false)] + s[k..];
            Sorted(t) && (forall e :: e in t <==>
              e in s || e == Entry(o, false)) && forall x: nat :: PhaseIn(t, x) == PhaseIn(s, x)
    ensures forall i :: 0 <= i < |s| ==> s[i].o != o
  {
    hide PhaseIn;
    var t := s[..k] + [Entry(o, false)] + s[k..];
    InsertedSorted(s, k, o);
    MembersOf(s[..k], Entry(o, false), s[k..]);
    assert s == s[..k] + s[k..];
    forall x: nat
      ensures PhaseIn(t, x) == PhaseIn(s, x)
    {
      AddedOutside(s, k, o, x);
    }
  }

  lemma {:induction false} NotThere(s: seq<Entry>, o: nat)
    requires forall i :: 0 <= i < |s| ==> s[i].o != o
    ensures PhaseIn(s, o) == Outside
  {
    if s != [] { NotThere(s[1..], o); }
  }
}
