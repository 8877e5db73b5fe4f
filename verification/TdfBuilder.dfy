/** `Packet`: put, push and pop calls build a tree below the top of a stack. */
module TdfBuilder {
  import opened Wrappers
  import opened TdfInteger
  import opened TdfLabel
  import opened Tdf

  /** Where a value hangs: the index taken at each container from the document down. */
  type Path = seq<nat>

  datatype Call =
    | Put(name: seq<Byte>, value: Value)
    | Push(name: seq<Byte>, head: Head)
    | Pop

  /** The document, itself a container, and the paths of the containers that are open. */
  datatype State = State(root: Value, stack: seq<Path>)

  function Top(s: seq<Path>): Path
    requires s != []
  {
    s[|s| - 1]
  }

  /** The path leads to a container. */
  predicate Leads(v: Value, p: Path)
    decreases p
  {
    v.Container? && (p != [] ==> p[0] < |v.items| && Leads(v.items[p[0]].value, p[1..]))
  }

  function At(v: Value, p: Path): (c: Value)
    requires Leads(v, p)
    ensures c.Container?
    decreases p
  {
    if p == [] then v else At(v.items[p[0]].value, p[1..])
  }

  /** The tree with more elements at the end of the container at the path. */
  function AppendAt(v: Value, p: Path, more: seq<Item>): (r: Value)
    requires Leads(v, p)
    ensures r.Container? && r.head == v.head && |r.items| >= |v.items|
    decreases p
  {
    if p == [] then Container(v.head, v.items + more)
    else
      var i := p[0];
      Container(v.head, v.items[i := Item(v.items[i].key, AppendAt(v.items[i].value, p[1..], more))])
  }

  /** What a character stands for as a digit, 36 if it is none. */
  function DigitOf(c: Byte): nat {
    if 48 <= c < 58 then c - 48 else if 97 <= c < 123 then c - 87 else if 65 <= c < 91 then c - 55 else 36
  }

  /** `acc` and the digits that the text begins with. */
  function Digits(s: seq<Byte>, base: nat, acc: nat): nat {
    if s == [] || DigitOf(s[0]) >= base then acc else Digits(s[1..], base, acc * base + DigitOf(s[0]))
  }

  /** `std::stoull(name, nullptr, 0)`: hexadecimal after `0x`, octal after another zero. */
  function Number(name: seq<Byte>): nat {
    if |name| > 2 && name[0] == 48 && (name[1] == 120 || name[1] == 88) && DigitOf(name[2]) < 16 then
      Digits(name[2..], 16, 0)
    else Digits(name, if name != [] && name[0] == 48 then 8 else 10, 0)
  }

  /** `std::to_string`, which the parser applies to the integer keys of maps. */
  function Text(n: nat): seq<Byte> {
    if n < 10 then [48 + n] else Text(n / 10) + [48 + n % 10]
  }

  lemma {:induction false} DigitsJoin(a: seq<Byte>, b: seq<Byte>, base: nat, acc: nat)
    requires forall i :: 0 <= i < |a| ==> DigitOf(a[i]) < base
    ensures Digits(a + b, base, acc) == Digits(b, base, Digits(a, base, acc))
    decreases a
  {
    if a == [] {
      assert a + b == b;
    } else {
      assert (a + b)[1..] == a[1..] + b;
      DigitsJoin(a[1..], b, base, acc * base + DigitOf(a[0]));
    }
  }

  lemma {:induction false} TextDigits(n: nat)
    ensures Digits(Text(n), 10, 0) == n && Text(n) != [] && (n > 0 ==> Text(n)[0] != 48)
    ensures forall i :: 0 <= i < |Text(n)| ==> DigitOf(Text(n)[i]) < 10
  {
    if n >= 10 {
      TextDigits(n / 10);
      DigitsJoin(Text(n / 10), [48 + n % 10], 10, 0);
      assert Digits([48 + n % 10], 10, n / 10) == Digits([], 10, n / 10 * 10 + n % 10);
    }
  }

  /** The name that an integer key gets when a map is read is written as the same key. */
  lemma TextIsNumber(n: nat)
    ensures Number(Text(n)) == n
  {
    TextDigits(n);
    if n == 0 {
      var zero: seq<Byte> := [48];
      assert Text(n) == zero && zero[1..] == [] && Digits(zero, 8, 0) == Digits(zero[1..], 8, 0);
    }
  }

  /** A leading zero makes a name octal, so that other names of decimal digits stand for another number. */
  lemma OctalNames()
    ensures Number([48, 49, 48]) == 8 && Digits([48, 49, 48], 10, 0) == 10
  {
    assert [48, 49, 48][1..] == [49, 48] && [49, 48][1..] == [48] && [48][1..] == [];
  }

  /** The digits are the ten of ASCII, then the letters of either case. */
  lemma DigitsAre(c: char)
    requires c < '\U{100}'
    ensures DigitOf(c as int) ==
            if '0' <= c <= '9' then (c - '0') as int
            else if 'a' <= c <= 'z' then (c - 'a') as int + 10
            else if 'A' <= c <= 'Z' then (c - 'A') as int + 10
            else 36
  {}

  lemma HexNames()
    ensures Number([48, 120, 49, 70]) == 31 && Number([48, 88, 97, 57]) == 169
  {
    assert [48, 120, 49, 70][2..] == [49, 70] && [49, 70][1..] == [70] && [70][1..] == [];
    assert [48, 88, 97, 57][2..] == [97, 57] && [97, 57][1..] == [57] && [57][1..] == [];
    assert Digits([57], 16, 10) == Digits([], 16, 169);
  }

  /** The value of digits by their places. */
  ghost function Positional(s: seq<Byte>, base: nat): nat {
    if s == [] then 0 else Positional(s[..|s| - 1], base) * base + DigitOf(s[|s| - 1])
  }

  /** Whether the digits of a name are those of this base, from this place on. */
  ghost predicate Based(name: seq<Byte>, base: nat, from: nat) {
    if |name| > 2 && name[0] == 48 && name[1] in {88, 120} && DigitOf(name[2]) < 16 then base == 16 && from == 2
    else from == 0 && base == if name != [] && name[0] == 48 then 8 else 10
  }

  lemma {:induction false} DigitsPositional(s: seq<Byte>, base: nat, k: nat)
    requires k <= |s| && (forall i :: 0 <= i < k ==> DigitOf(s[i]) < base) && (k < |s| ==> DigitOf(s[k]) >= base)
    ensures Digits(s, base, 0) == Positional(s[..k], base)
  {
    assert s == s[..k] + s[k..];
    DigitsJoin(s[..k], s[k..], base, 0);
    AllDigits(s[..k], base);
  }

  lemma {:induction false} AllDigits(s: seq<Byte>, base: nat)
    requires forall i :: 0 <= i < |s| ==> DigitOf(s[i]) < base
    ensures Digits(s, base, 0) == Positional(s, base)
  {
    if s != [] {
      var front, last := s[..|s| - 1], s[|s| - 1];
      assert s == front + [last] && [last][1..] == [];
      DigitsJoin(front, [last], base, 0);
      AllDigits(front, base);
      assert Digits([last], base, Digits(front, base, 0)) == Digits(front, base, 0) * base + DigitOf(last);
    }
  }

  /** The number that a name stands for is the value of its digits, up to the first character that is none. */
  lemma NumberIs(name: seq<Byte>, base: nat, from: nat, k: nat)
    requires Based(name, base, from) && from <= k <= |name|
    requires (forall i :: from <= i < k ==> DigitOf(name[i]) < base) && (k < |name| ==> DigitOf(name[k]) >= base)
    ensures Number(name) == Positional(name[from..k], base)
  {
    DigitsPositional(name[from..], base, k - from);
    assert name[from..][..k - from] == name[from..k];
    assert name[0..] == name;
  }

  /** What a name becomes inside a container: arrays drop it, maps turn it into their key. */
  function KeyIn(h: Head, name: seq<Byte>): Key {
    match h
    case StructHead => Label(name)
    case UnionHead(_) => Label(name)
    case ListHead(_, _) => NoKey
    case IntegerListHead => NoKey
    case MapHead(keyKind, _) => if keyKind == INTEGER then IntKey(Number(name)) else StrKey(name)
  }

  /** The open containers lie inside one another, the document outermost. */
  ghost predicate Valid(s: State) {
    && s.stack != [] && s.stack[0] == []
    && (forall i :: 0 <= i < |s.stack| ==> Leads(s.root, s.stack[i]))
    && (forall i, j :: 0 <= i < j < |s.stack| ==> s.stack[i] < s.stack[j])
  }

  /** One call. */
  function Step(s: State, c: Call): State
    requires Valid(s)
  {
    var p := Top(s.stack);
    var open := At(s.root, p);
    match c
    case Put(name, value) => State(AppendAt(s.root, p, [Item(KeyIn(open.head, name), value)]), s.stack)
    case Push(name, head) =>
      State(AppendAt(s.root, p, [Item(KeyIn(open.head, name), Container(head, []))]), s.stack + [p + [|open.items|]])
    case Pop => if |s.stack| > 1 then State(s.root, s.stack[..|s.stack| - 1]) else s
  }

  lemma {:induction false} AppendLeads(v: Value, p: Path, more: seq<Item>, q: Path)
    requires Leads(v, p) && Leads(v, q)
    ensures Leads(AppendAt(v, p, more), q)
    decreases p
  {
    if p != [] && q != [] {
      if p[0] == q[0] { AppendLeads(v.items[p[0]].value, p[1..], more, q[1..]); }
    } else if q != [] {
      assert (v.items + more)[q[0]] == v.items[q[0]];
    }
  }

  /** A container above the one that is appended to keeps its head and its elements, but for the one on the way. */
  lemma {:induction false} AppendSpares(v: Value, p: Path, more: seq<Item>, q: Path)
    requires Leads(v, p) && Leads(v, q) && q < p
    ensures Leads(AppendAt(v, p, more), q)
    ensures var was, now := At(v, q), At(AppendAt(v, p, more), q);
            && now.head == was.head && |now.items| == |was.items|
            && forall k :: 0 <= k < |was.items| ==>
                 now.items[k].key == was.items[k].key && (k != p[|q|] ==> now.items[k] == was.items[k])
    decreases p
  {
    if q != [] {
      assert p[0] == q[0] && q[1..] < p[1..];
      AppendSpares(v.items[p[0]].value, p[1..], more, q[1..]);
    }
  }

  /** What was appended is where it belongs. */
  lemma {:induction false} AppendedAt(v: Value, p: Path, more: seq<Item>)
    requires Leads(v, p)
    ensures Leads(AppendAt(v, p, more), p)
    ensures At(AppendAt(v, p, more), p) == Container(At(v, p).head, At(v, p).items + more)
    decreases p
  {
    if p != [] { AppendedAt(v.items[p[0]].value, p[1..], more); }
  }

  lemma {:induction false} LeadsFurther(v: Value, p: Path, k: nat)
    requires Leads(v, p) && k < |At(v, p).items| && At(v, p).items[k].value.Container?
    ensures Leads(v, p + [k]) && At(v, p + [k]) == At(v, p).items[k].value
    decreases p
  {
    if p != [] {
      LeadsFurther(v.items[p[0]].value, p[1..], k);
      assert (p + [k])[1..] == p[1..] + [k];
    }
  }

  /** Every call keeps the stack well-formed; no call, not even an unmatched `pop`, empties it. */
  lemma StepKeepsValid(s: State, c: Call)
    requires Valid(s)
    ensures Valid(Step(s, c))
  {
    var p := Top(s.stack);
    match c
    case Put(name, value) =>
      var more := [Item(KeyIn(At(s.root, p).head, name), value)];
      forall i | 0 <= i < |s.stack|
        ensures Leads(AppendAt(s.root, p, more), s.stack[i])
      {
        AppendLeads(s.root, p, more, s.stack[i]);
      }
    case Push(name, head) =>
      var more := [Item(KeyIn(At(s.root, p).head, name), Container(head, []))];
      forall i | 0 <= i < |s.stack|
        ensures Leads(AppendAt(s.root, p, more), s.stack[i])
      {
        AppendLeads(s.root, p, more, s.stack[i]);
      }
      AppendedAt(s.root, p, more);
      LeadsFurther(AppendAt(s.root, p, more), p, |At(s.root, p).items|);
    case Pop =>
  }

  /** The containers that were open around the innermost one are where they were, and have as many elements. */
  ghost predicate Spares(s: State, t: State)
    requires Valid(s)
  {
    forall i :: 0 <= i < |s.stack| - 1 ==>
      && Leads(t.root, s.stack[i])
      && var was, now, way := At(s.root, s.stack[i]), At(t.root, s.stack[i]), Top(s.stack)[|s.stack[i]|];
         && now.head == was.head && |now.items| == |was.items|
         && forall k :: 0 <= k < |was.items| ==>
              now.items[k].key == was.items[k].key && (k != way ==> now.items[k] == was.items[k])
  }

  /**
    The open container has one more element, at its end: a value under the name, or a new container. In structs and
    unions its key is the name, in lists it has none, in maps it is the name or the number that the name stands for.
   */
  ghost predicate Grew(s: State, t: State, name: seq<Byte>, value: Value)
    requires Valid(s)
  {
    var p := Top(s.stack);
    && Leads(t.root, p)
    && var was, now := At(s.root, p), At(t.root, p);
       && now.head == was.head && |now.items| == |was.items| + 1 && now.items[..|was.items|] == was.items
       && now.items[|was.items|].value == value && Named(was.head, name, now.items[|was.items|].key)
  }

  ghost predicate Named(h: Head, name: seq<Byte>, key: Key) {
    && (h.StructHead? || h.UnionHead? ==> key == Label(name))
    && (h.ListHead? || h.IntegerListHead? ==> key == NoKey)
    && (h.MapHead? && h.keyKind != INTEGER ==> key == StrKey(name))
    && (h.MapHead? && h.keyKind == INTEGER ==> key.IntKey? && Stands(name, key.n))
  }

  /** The number is the value of the digits that the name begins with. */
  ghost predicate Stands(name: seq<Byte>, n: nat) {
    forall base: nat, from: nat, k: nat :: Based(name, base, from) && from <= k <= |name|
      && (forall i :: from <= i < k ==> DigitOf(name[i]) < base) && (k < |name| ==> DigitOf(name[k]) >= base)
      ==> n == Positional(name[from..k], base)
  }

  /** There is one such number, `Number`. */
  lemma StandsIff(name: seq<Byte>, n: nat)
    ensures Stands(name, n) <==> n == Number(name)
  {
    forall base: nat, from: nat, k: nat | Based(name, base, from) && from <= k <= |name|
      && (forall i :: from <= i < k ==> DigitOf(name[i]) < base) && (k < |name| ==> DigitOf(name[k]) >= base)
      ensures Number(name) == Positional(name[from..k], base)
    {
      NumberIs(name, base, from, k);
    }
    var hex := |name| > 2 && name[0] == 48 && name[1] in {88, 120} && DigitOf(name[2]) < 16;
    var base, from := if hex then 16 else if name != [] && name[0] == 48 then 8 else 10, if hex then 2 else 0;
    assert Based(name, base, from);
    var k: nat := from;
    while k < |name| && DigitOf(name[k]) < base
      invariant from <= k <= |name| && forall i :: from <= i < k ==> DigitOf(name[i]) < base
    {
      k := k + 1;
    }
    NumberIs(name, base, from, k);
  }

  lemma KeyIsNamed(h: Head, name: seq<Byte>)
    ensures Named(h, name, KeyIn(h, name))
  {
    StandsIff(name, Number(name));
  }

  /** What a call that adds an element does. */
  lemma StepGrows(s: State, c: Call)
    requires Valid(s) && !c.Pop?
    ensures Grew(s, Step(s, c), c.name, if c.Put? then c.value else Container(c.head, []))
  {
    hide Named, KeyIn;
    var p := Top(s.stack);
    var value := if c.Put? then c.value else Container(c.head, []);
    KeyIsNamed(At(s.root, p).head, c.name);
    AppendedAt(s.root, p, [Item(KeyIn(At(s.root, p).head, c.name), value)]);
  }

  /** No call appends to a container around the open one: the pointers into them that the stack holds stay good. */
  lemma StepSpares(s: State, c: Call)
    requires Valid(s)
    ensures Spares(s, Step(s, c))
  {
    var p := Top(s.stack);
    var key := if c.Pop? then NoKey else KeyIn(At(s.root, p).head, c.name);
    var more := [Item(key, if c.Put? then c.value else if c.Push? then Container(c.head, []) else s.root)];
    forall i | 0 <= i < |s.stack| - 1 {
      AppendSpares(s.root, p, more, s.stack[i]);
    }
  }

  function Run(s: State, calls: seq<Call>): (t: State)
    requires Valid(s)
    ensures Valid(t)
    decreases calls
  {
    if calls == [] then s
    else
      StepKeepsValid(s, calls[0]);
      Run(Step(s, calls[0]), calls[1..])
  }

  lemma {:induction false} RunTwice(s: State, a: seq<Call>, b: seq<Call>)
    requires Valid(s)
    ensures Run(s, a + b) == Run(Run(s, a), b)
    decreases a
  {
    if a == [] {
      assert a + b == b;
    } else {
      StepKeepsValid(s, a[0]);
      RunTwice(Step(s, a[0]), a[1..], b);
      assert (a + b)[1..] == a[1..] + b;
    }
  }

  // ---------- properly nested calls and the tree they denote ----------

  datatype Nested = Leaf(name: seq<Byte>, value: Value) | Node(name: seq<Byte>, head: Head, body: seq<Nested>)

  function Calls(n: seq<Nested>): seq<Call>
    decreases n
  {
    if n == [] then [] else CallsOf(n[0]) + Calls(n[1..])
  }

  function CallsOf(n: Nested): seq<Call>
    decreases n
  {
    match n
    case Leaf(name, value) => [Put(name, value)]
    case Node(name, head, body) => [Push(name, head)] + Calls(body) + [Pop]
  }

  function Denoted(h: Head, n: seq<Nested>): seq<Item>
    decreases n
  {
    if n == [] then [] else [DenotedOf(h, n[0])] + Denoted(h, n[1..])
  }

  function DenotedOf(h: Head, n: Nested): Item
    decreases n
  {
    match n
    case Leaf(name, value) => Item(KeyIn(h, name), value)
    case Node(name, head, body) => Item(KeyIn(h, name), Container(head, Denoted(head, body)))
  }

  /** The elements that nested calls have to make, in the order of the calls. */
  ghost predicate Built(h: Head, n: seq<Nested>, items: seq<Item>)
    decreases n
  {
    |items| == |n| && forall i :: 0 <= i < |n| ==> BuiltOf(h, n[i], items[i])
  }

  ghost predicate BuiltOf(h: Head, n: Nested, item: Item)
    decreases n
  {
    && Named(h, n.name, item.key)
    && match n
       case Leaf(_, value) => item.value == value
       case Node(_, head, body) =>
         item.value.Container? && item.value.head == head && Built(head, body, item.value.items)
  }

  lemma {:induction false} DenotedIsBuilt(h: Head, n: seq<Nested>)
    ensures Built(h, n, Denoted(h, n))
    decreases n
  {
    hide Named, BuiltOf;
    if n != [] {
      DenotedOfIsBuilt(h, n[0]);
      DenotedIsBuilt(h, n[1..]);
    }
  }

  lemma {:induction false} DenotedOfIsBuilt(h: Head, n: Nested)
    ensures BuiltOf(h, n, DenotedOf(h, n))
    decreases n
  {
    hide Named;
    KeyIsNamed(h, n.name);
    if n.Node? { DenotedIsBuilt(n.head, n.body); }
  }

  /** Nested calls add to the open container the elements they ask for, at any depth, and nothing else changes. */
  lemma RunAdds(s: State, n: seq<Nested>) returns (more: seq<Item>)
    requires Valid(s)
    ensures var p, t := Top(s.stack), Run(s, Calls(n));
            && t == State(AppendAt(s.root, p, more), s.stack) && Built(At(s.root, p).head, n, more)
            && At(t.root, p).items == At(s.root, p).items + more
  {
    var p := Top(s.stack);
    more := Denoted(At(s.root, p).head, n);
    RunNested(s, n);
    DenotedIsBuilt(At(s.root, p).head, n);
    AppendedAt(s.root, p, more);
  }

  lemma {:induction false} AppendTwice(v: Value, p: Path, a: seq<Item>, b: seq<Item>)
    requires Leads(v, p)
    ensures Leads(AppendAt(v, p, a), p) && AppendAt(AppendAt(v, p, a), p, b) == AppendAt(v, p, a + b)
    decreases p
  {
    if p == [] {
      assert v.items + a + b == v.items + (a + b);
    } else {
      AppendTwice(v.items[p[0]].value, p[1..], a, b);
    }
  }

  lemma {:induction false} AppendNothing(v: Value, p: Path)
    requires Leads(v, p)
    ensures AppendAt(v, p, []) == v
    decreases p
  {
    if p == [] {
      assert v.items + [] == v.items;
    } else {
      AppendNothing(v.items[p[0]].value, p[1..]);
      assert v.items[p[0] := v.items[p[0]]] == v.items;
    }
  }

  /** Filling a container just pushed is appending it filled. */
  lemma {:induction false} AppendInside(v: Value, p: Path, key: Key, h: Head, body: seq<Item>)
    requires Leads(v, p)
    ensures var k := |At(v, p).items|; var pushed := AppendAt(v, p, [Item(key, Container(h, []))]);
            && Leads(pushed, p + [k]) && At(pushed, p + [k]) == Container(h, [])
            && AppendAt(pushed, p + [k], body) == AppendAt(v, p, [Item(key, Container(h, body))])
    decreases p
  {
    var k := |At(v, p).items|;
    if p == [] {
      var items := v.items + [Item(key, Container(h, []))];
      assert [] + [k] == [k] && [k][1..] == [];
      assert [] + body == body;
      assert items[k := Item(key, Container(h, body))] == v.items + [Item(key, Container(h, body))];
    } else {
      AppendInside(v.items[p[0]].value, p[1..], key, h, body);
      assert (p + [k])[1..] == p[1..] + [k];
    }
  }

  /** Nested calls append what they denote to the open container and leave the stack as it was. */
  lemma {:induction false} RunNested(s: State, n: seq<Nested>)
    requires Valid(s)
    ensures var p := Top(s.stack);
            Run(s, Calls(n)) == State(AppendAt(s.root, p, Denoted(At(s.root, p).head, n)), s.stack)
    decreases n
  {
    var p := Top(s.stack);
    var h := At(s.root, p).head;
    if n == [] {
      AppendNothing(s.root, p);
    } else {
      var first := [DenotedOf(h, n[0])];
      RunTwice(s, CallsOf(n[0]), Calls(n[1..]));
      RunOne(s, n[0]);
      AppendedAt(s.root, p, first);
      RunNested(Run(s, CallsOf(n[0])), n[1..]);
      AppendTwice(s.root, p, first, Denoted(h, n[1..]));
    }
  }

  lemma {:induction false} RunOne(s: State, n: Nested)
    requires Valid(s)
    ensures var p := Top(s.stack);
            Run(s, CallsOf(n)) == State(AppendAt(s.root, p, [DenotedOf(At(s.root, p).head, n)]), s.stack)
    decreases n
  {
    var p := Top(s.stack);
    var open := At(s.root, p);
    match n
    case Leaf(name, value) =>
      RunSingle(s, Put(name, value));
    case Node(name, head, body) =>
      var push := Push(name, head);
      RunSingle(s, push);
      var pushed := Step(s, push);
      StepKeepsValid(s, push);
      RunTwice(s, [push] + Calls(body), [Pop]);
      RunTwice(s, [push], Calls(body));
      AppendInside(s.root, p, KeyIn(open.head, name), head, Denoted(head, body));
      assert Top(pushed.stack) == p + [|open.items|];
      RunNested(pushed, body);
      RunSingle(Run(pushed, Calls(body)), Pop);
      assert pushed.stack[..|pushed.stack| - 1] == s.stack;
  }

  lemma RunSingle(s: State, c: Call)
    requires Valid(s)
    ensures Run(s, [c]) == Step(s, c)
  {
    StepKeepsValid(s, c);
    assert Run(Step(s, c), [][..]) == Step(s, c);
  }

  const EMPTY := State(Container(StructHead, []), [[]])

  /** On a new packet, nested calls build exactly the tree they denote and leave only the document on the stack. */
  lemma NestedCallsBuild(n: seq<Nested>)
    ensures Valid(EMPTY) && Run(EMPTY, Calls(n)) == State(Container(StructHead, Denoted(StructHead, n)), [[]])
  {
    RunNested(EMPTY, n);
    assert [] + Denoted(StructHead, n) == Denoted(StructHead, n);
  }

  /**
    From calls to bytes and back: what the parser finds in the bytes is the document that nested calls build, its texts
    up to their first NUL and its blobs as strings.
   */
  lemma BuiltIsRead(n: seq<Nested>)
    requires GoodDocument(Denoted(StructHead, n))
    ensures var items := Run(EMPTY, Calls(n)).root.items;
            ReadDocument(ItemsBytes(items, |items|), []) == Some(ItemsAsRead(Denoted(StructHead, n)))
  {
    NestedCallsBuild(n);
    DocumentRoundTrip(Denoted(StructHead, n));
  }

  /**
    The fields of the document come back under the names they were given, in the order of the calls, if these names are
    valid and distinct and the values well-formed.
   */
  lemma NamesComeBack(n: seq<Nested>) returns (built: seq<Item>, r: seq<Item>)
    ensures built == Run(EMPTY, Calls(n)).root.items && Built(StructHead, n, built)
    ensures (forall i :: 0 <= i < |n| ==> ValidLabel(n[i].name) && Good(built[i].value))
              && (forall i, j :: 0 <= i < j < |n| ==> n[i].name != n[j].name) ==>
              && ReadDocument(ItemsBytes(built, |built|), []) == Some(r) && |r| == |n|
              && forall i :: 0 <= i < |n| ==>
                   r[i].key == Label(n[i].name) && r[i].value == AsRead(built[i].value)
                   && (n[i].Leaf? ==> built[i].value == n[i].value)
  {
    hide Good, AsRead, ReadDocument, ItemsBytes, Denoted;
    NestedCallsBuild(n);
    built := Denoted(StructHead, n);
    DenotedIsBuilt(StructHead, n);
    r := ItemsAsRead(built);
    assert forall i :: 0 <= i < |n| ==> BuiltOf(StructHead, n[i], built[i]);
    if (forall i :: 0 <= i < |n| ==> ValidLabel(n[i].name) && Good(built[i].value))
       && (forall i, j :: 0 <= i < j < |n| ==> n[i].name != n[j].name) {
      assert GoodDocument(built);
      DocumentRoundTrip(built);
    }
  }

  class Packet {
    var root: Value
    var stack: seq<Path>

    constructor ()
      ensures Now() == EMPTY && Valid(Now())
    {
      root, stack := Container(StructHead, []), [[]];
    }

    function Now(): State
      reads this
    {
      State(root, stack)
    }

    method PutInteger(name: seq<Byte>, n: nat)
      requires Valid(Now())
      modifies this
      ensures Valid(Now()) && Now() == Step(old(Now()), Put(name, Integer(n)))
    {
      AddMember(name, Integer(n));
    }

    method PutString(name: seq<Byte>, s: seq<Byte>)
      requires Valid(Now())
      modifies this
      ensures Valid(Now()) && Now() == Step(old(Now()), Put(name, String(s)))
    {
      AddMember(name, String(s));
    }

    method PutBlob(name: seq<Byte>, data: seq<Byte>)
      requires Valid(Now())
      modifies this
      ensures Valid(Now()) && Now() == Step(old(Now()), Put(name, Binary(data)))
    {
      AddMember(name, Binary(data));
    }

    method PutObjectType(name: seq<Byte>, x: nat, y: nat)
      requires Valid(Now())
      modifies this
      ensures Valid(Now()) && Now() == Step(old(Now()), Put(name, ObjectType(x, y)))
    {
      AddMember(name, ObjectType(x, y));
    }

    method PutObjectId(name: seq<Byte>, x: nat, y: nat, z: nat)
      requires Valid(Now())
      modifies this
      ensures Valid(Now()) && Now() == Step(old(Now()), Put(name, ObjectId(x, y, z)))
    {
      AddMember(name, ObjectId(x, y, z));
    }

    /** `push_struct`, `push_union`, `push_map`, `push_list` and `push_integer_list`, which differ in the head only. */
    method PushContainer(name: seq<Byte>, head: Head)
      requires Valid(Now())
      modifies this
      ensures Valid(Now()) && Now() == Step(old(Now()), Push(name, head)) && Spares(old(Now()), Now())
      ensures Grew(old(Now()), Now(), name, Container(head, [])) && Top(stack)[..|Top(stack)| - 1] == Top(old(stack))
    {
      StepGrows(Now(), Push(name, head));
      StepKeepsValid(Now(), Push(name, head));
      StepSpares(Now(), Push(name, head));
      var parent := Top(stack);
      var index := |At(root, parent).items|;
      AddMember(name, Container(head, []));
      stack := stack + [parent + [index]];
    }

    method PopContainer()
      requires Valid(Now())
      modifies this
      ensures Valid(Now()) && Now() == Step(old(Now()), Pop)
    {
      if |stack| > 1 {
        stack := stack[..|stack| - 1];
      }
    }

    /** `AddMember`: no label is looked up, the value always comes last. */
    method AddMember(name: seq<Byte>, value: Value)
      requires Valid(Now())
      modifies this
      ensures Valid(Now()) && Now() == Step(old(Now()), Put(name, value)) && Spares(old(Now()), Now())
      ensures Grew(old(Now()), Now(), name, value)
    {
      StepGrows(Now(), Put(name, value));
      StepKeepsValid(Now(), Put(name, value));
      StepSpares(Now(), Put(name, value));
      var parent := Top(stack);
      root := AppendAt(root, parent, [Item(KeyIn(At(root, parent).head, name), value)]);
    }
  }
}
