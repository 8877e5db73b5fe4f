/** Where the TDF round trip ends: which values do not come back. */
module TdfLimits {
  import opened Wrappers
  import opened TdfInteger
  import opened TdfLabel
  import opened Tdf

  /** The value is read back equal, and what follows it is left. */
  predicate Returns(v: Value, rest: seq<Byte>) {
    ReadValue(Kind(v), ValueBytes(v) + rest) == Some(Parsed(v, rest))
  }

  // ---------- what reading can give ----------

  predicate GivenKey(keyKind: nat, key: Key) {
    if keyKind == INTEGER then key.IntKey? && key.n < LIMIT else keyKind == STRING && key.StrKey? && |key.s| + 1 < LIMIT
  }

  /** The elements of a list or map. */
  predicate GivenElements(keyKind: Option<nat>, kind: nat, items: seq<Item>) {
    forall i :: 0 <= i < |items| ==>
      && Kind(items[i].value) == kind && Element(kind)
      && if keyKind.None? then items[i].key == NoKey else GivenKey(keyKind.value, items[i].key)
  }

  predicate GivenItems(h: Head, items: seq<Item>) {
    match h
    case StructHead => GoodMembers(items)
    case UnionHead(address) =>
      address < 0x100 && Labelled(items) && |items| <= if address == UNSET then 0 else 1
    case ListHead(kind, stub) =>
      kind < 0x100 &&
      if stub then kind == STRUCT && forall i :: 0 <= i < |items| ==> items[i].key == NoKey
      else |items| < 0x100 && Elements(None, kind, items)
    case MapHead(keyKind, kind) =>
      keyKind < 0x100 && kind < 0x100 && |items| < 0x100 && GivenElements(Some(keyKind), kind, items)
    case IntegerListHead => |items| < 0x100 && Elements(None, INTEGER, items)
  }

  /** What every value that was read satisfies, at every depth. */
  predicate Given(v: Value)
    decreases v
  {
    match v
    case Integer(n) => n < LIMIT
    case String(s) => |s| < LIMIT
    case Binary(_) => false
    case ObjectType(x, y) => x < LIMIT && y < LIMIT
    case ObjectId(x, y, z) => x < LIMIT && y < LIMIT && z < LIMIT
    case Container(h, items) => GivenItems(h, items) && forall i :: 0 <= i < |items| ==> Given(items[i].value)
  }

  predicate AllGiven(items: seq<Item>) {
    forall i :: 0 <= i < |items| ==> Given(items[i].value)
  }

  /** What is read is shorter than the limit. */
  lemma StringsBelow(b: seq<Byte>)
    ensures ReadString(b).Some? ==> |ReadString(b).value.0| + 1 < LIMIT
    ensures ReadBinary(b).Some? ==> |ReadBinary(b).value.0| < LIMIT
  {
    hide Decode;
  }

  /** No integer at or above the limit is ever read. */
  lemma {:induction false} IntegersBelow(n: nat, b: seq<Byte>)
    ensures ReadIntegers(n, b).Some? ==> forall i :: 0 <= i < n ==> ReadIntegers(n, b).value.0[i] < LIMIT
  {
    hide Decode;
    if n > 0 && Decode(b).Some? {
      IntegersBelow(n - 1, Decode(b).value.rest);
    }
  }

  /** Where the value has elements they are of the kind asked for; blobs become strings. */
  lemma ReadKind(kind: nat, b: seq<Byte>)
    requires Element(kind)
    ensures ReadValue(kind, b).Some? ==> Kind(ReadValue(kind, b).value.value) == kind
  {
    hide ReadMembers, ReadItems, ReadField, ReadIntegers, ReadString, ReadBinary, Decode;
  }

  lemma ReadKeyGives(keyKind: Option<nat>, b: seq<Byte>)
    ensures ReadKey(keyKind, b).Some? ==>
              var key := ReadKey(keyKind, b).value.0;
              if keyKind.None? then key == NoKey else GivenKey(keyKind.value, key)
  {
    hide Decode, ReadString;
    StringsBelow(b);
    IntegersBelow(1, b);
    assert ReadIntegers(1, b).Some? <==> Decode(b).Some?;
  }

  lemma FieldLabel(b: seq<Byte>)
    ensures ReadField(b).Found? ==> AnyLabel(Label(ReadField(b).name)) && (b[0] != 0 ==> ReadField(b).name != [])
  {
    hide ReadValue, HeaderLabel;
    if |b| >= 4 && b[0] != 0 { HeaderNamed(b[..4]); }
  }

  /** The members of an object: a new one takes the place of one with the same label. */
  lemma {:induction false} PutKeeps(had: seq<Item>, key: Key, value: Value)
    requires Labelled(had) && AnyLabel(key) && AllGiven(had) && Given(value)
    ensures var now := Put(had, key, value);
            && Labelled(now) && AllGiven(now)
            && forall i :: 0 <= i < |now| ==>
                 now[i].key == key || exists j :: 0 <= j < |had| && had[j].key == now[i].key
  {
    hide Given;
    if had != [] && had[0].key != key {
      PutKeeps(had[1..], key, value);
      var more := Put(had[1..], key, value);
      forall i | 0 <= i < |more|
        ensures more[i].key == key || exists j :: 0 < j < |had| && had[j].key == more[i].key
      {
        if more[i].key != key {
          var j :| 0 <= j < |had[1..]| && had[1..][j].key == more[i].key;
          assert had[j + 1].key == more[i].key;
        }
      }
    }
  }

  /** What has been collected of an array or of a struct. */
  predicate Collected(inArray: bool, had: seq<Item>) {
    AllGiven(had) && if inArray then forall i :: 0 <= i < |had| ==> had[i].key == NoKey else GoodMembers(had)
  }

  lemma AddKeeps(inArray: bool, had: seq<Item>, name: seq<Byte>, value: Value)
    requires Collected(inArray, had) && GoodLabel(Label(name)) && Given(value)
    ensures Collected(inArray, Add(inArray, had, name, value))
  {
    hide Given;
    if !inArray { PutKeeps(had, Label(name), value); }
  }

  lemma {:induction false} ReadMembersGives(inArray: bool, b: seq<Byte>, had: seq<Item>)
    requires Collected(inArray, had)
    ensures ReadMembers(inArray, b, had).Some? ==> Collected(inArray, ReadMembers(inArray, b, had).value.items)
    decreases |b|, 1
  {
    hide ReadField, Collected, Add, Given;
    if b != [] && b[0] != 0 {
      match ReadField(b)
      case Failed =>
      case Skipped(rest) => ReadMembersGives(inArray, rest, had);
      case Found(name, value, rest) =>
        FieldLabel(b);
        ReadFieldGives(b);
        AddKeeps(inArray, had, name, value);
        ReadMembersGives(inArray, rest, Add(inArray, had, name, value));
    }
  }

  lemma {:induction false} ReadFieldGives(b: seq<Byte>)
    ensures ReadField(b).Found? ==> Given(ReadField(b).value)
    decreases |b|, 0
  {
    hide ReadValue, HeaderLabel, HeaderKind, Given;
    if |b| > 4 { ReadValueGives(HeaderKind(b[..4]), b[4..]); }
  }

  lemma ElementsGiven(keyKind: Option<nat>, kind: nat, items: seq<Item>)
    requires keyKind.None? && GivenElements(keyKind, kind, items)
    ensures Elements(keyKind, kind, items)
  {
    hide Kind;
  }

  /** Elements are all of the list's kind, which is one the reader knows; the others it drops. */
  lemma {:induction false} ReadItemsGives(n: nat, keyKind: Option<nat>, kind: nat, b: seq<Byte>)
    ensures var r := ReadItems(n, keyKind, kind, b);
            r.Some? ==>
              |r.value.items| <= n && AllGiven(r.value.items) && GivenElements(keyKind, kind, r.value.items)
    decreases |b|, 4, n
  {
    hide ReadValue, ReadKey, GivenKey, Given, Kind;
    if n > 0 {
      if !Element(kind) {
        if keyKind.None? { ReadItemsGives(n - 1, keyKind, kind, b); }
      } else if ReadKey(keyKind, b).Some? {
        var (key, r) := ReadKey(keyKind, b).value;
        ReadKeyGives(keyKind, b);
        ReadKind(kind, r);
        ReadValueGives(kind, r);
        if ReadValue(kind, r).Some? { ReadItemsGives(n - 1, keyKind, kind, ReadValue(kind, r).value.rest); }
      }
    }
  }

  lemma {:induction false} ReadUnionGives(b: seq<Byte>)
    ensures ReadUnion(b).Some? ==> Given(ReadUnion(b).value.value)
    decreases |b|, 2
  {
    hide ReadField;
    if b != [] {
      FieldLabel(b[1..]);
      ReadFieldGives(b[1..]);
    }
  }

  lemma {:induction false} ReadElementsGives(b: seq<Byte>)
    requires |b| >= 2
    ensures var r := ReadItems(b[1], None, b[0], b[2..]);
            r.Some? ==> GivenItems(ListHead(b[0], false), r.value.items) && AllGiven(r.value.items)
    decreases |b|, 1
  {
    hide ReadItems, Given, Kind;
    var kind: Byte, n: Byte := b[0], b[1];
    ReadItemsGives(n, None, kind, b[2..]);
    var r := ReadItems(n, None, kind, b[2..]);
    if r.Some? {
      ElementsGiven(None, kind, r.value.items);
      assert GivenItems(ListHead(kind, false), r.value.items);
    }
  }

  lemma {:induction false} ReadListGives(b: seq<Byte>)
    ensures ReadList(b).Some? ==> Given(ReadList(b).value.value)
    decreases |b|, 2
  {
    hide ReadMembers, ReadItems, Kind;
    if |b| > 2 && b[2] == STUB && b[0] == STRUCT {
      ReadMembersGives(true, b[3..], []);
    } else if |b| >= 2 {
      ReadElementsGives(b);
    }
  }

  lemma {:induction false} ReadMapGives(b: seq<Byte>)
    requires |b| >= 3
    ensures var r := ReadItems(b[2], Some(b[0]), b[1], b[3..]);
            r.Some? ==> GivenItems(MapHead(b[0], b[1]), r.value.items) && AllGiven(r.value.items)
    decreases |b|, 2
  {
    hide ReadItems, Given, GivenKey, Kind;
    var keyKind: Byte, kind: Byte, n: Byte := b[0], b[1], b[2];
    ReadItemsGives(n, Some(keyKind), kind, b[3..]);
    var r := ReadItems(n, Some(keyKind), kind, b[3..]);
    assert r.Some? ==> GivenItems(MapHead(keyKind, kind), r.value.items);
  }

  lemma {:induction false} ReadNumbersGives(b: seq<Byte>)
    requires b != []
    ensures var r := ReadItems(b[0], None, INTEGER, b[1..]);
            r.Some? ==> GivenItems(IntegerListHead, r.value.items) && AllGiven(r.value.items)
    decreases |b|, 2
  {
    hide ReadItems, Given, Kind;
    var n: Byte := b[0];
    ReadItemsGives(n, None, INTEGER, b[1..]);
    var r := ReadItems(n, None, INTEGER, b[1..]);
    if r.Some? { ElementsGiven(None, INTEGER, r.value.items); }
  }

  /** Every value the reader gives is one it can give, down to its last element. */
  lemma {:induction false} ReadValueGives(kind: nat, b: seq<Byte>)
    ensures ReadValue(kind, b).Some? ==> Given(ReadValue(kind, b).value.value)
    decreases |b|, 3
  {
    hide Decode, ReadMembers, ReadItems, ReadUnion, ReadList, ReadIntegers, ReadString, ReadBinary;
    StringsBelow(b);
    IntegersBelow(2, b);
    IntegersBelow(3, b);
    if kind == STRUCT {
      NoneCollected();
      ReadMembersGives(false, b, []);
    } else if kind == LIST {
      ReadListGives(b);
    } else if kind == UNION {
      ReadUnionGives(b);
    } else if kind == MAP && |b| >= 3 {
      ReadMapGives(b);
    } else if kind == INTEGER_LIST && |b| >= 1 {
      ReadNumbersGives(b);
    }
  }

  lemma NoneCollected()
    ensures Collected(false, []) && Collected(true, [])
  {}

  // ---------- which values come back ----------

  /**
    No stub list in it, and no union that has an address but no member: reading those takes more than was written.
    (Nor a string of 2^55 - 1 bytes, which can be read as a blob only.)
   */
  predicate Whole(v: Value)
    decreases v
  {
    match v
    case String(s) => |CString(s)| + 1 != LIMIT
    case Container(h, items) =>
      && !(h.ListHead? && h.stub) && (h.UnionHead? && h.address != UNSET ==> items != [])
      && forall i :: 0 <= i < |items| ==> Whole(items[i].value)
    case _ => true
  }

  /** Well-formed values are. */
  lemma {:induction false} GoodIsWhole(v: Value)
    requires Good(v)
    ensures Whole(v)
    decreases v
  {
    if v.Container? {
      forall i | 0 <= i < |v.items|
        ensures Whole(v.items[i].value)
      {
        GoodIsWhole(v.items[i].value);
      }
    }
  }

  lemma GivenText(s: seq<Byte>)
    requires |s| < LIMIT && |CString(s)| + 1 != LIMIT
    ensures GoodText(s)
  {
    CStringIs(s);
  }

  /** What the reader can give is well-formed otherwise. */
  lemma {:induction false} GivenIsGood(v: Value)
    requires Given(v) && Whole(v)
    ensures Good(v)
    decreases v
  {
    hide CString;
    match v
    case String(s) => GivenText(s);
    case Container(h, items) =>
      GivenItemsGood(h, items);
      forall i | 0 <= i < |items|
        ensures Good(items[i].value)
      {
        GivenIsGood(items[i].value);
      }
    case _ =>
  }

  lemma GivenItemsGood(h: Head, items: seq<Item>)
    requires GivenItems(h, items) && !(h.ListHead? && h.stub) && (h.UnionHead? && h.address != UNSET ==> items != [])
    ensures GoodItems(h, items)
  {
    hide Elements, GivenElements, GoodMembers, Labelled;
    if h.MapHead? { EntriesGood(h.keyKind, h.valueKind, items); }
  }

  lemma EntriesGood(keyKind: nat, kind: nat, items: seq<Item>)
    requires GivenElements(Some(keyKind), kind, items)
    ensures Elements(Some(keyKind), kind, items)
  {
    hide CString, Kind;
    forall i | 0 <= i < |items|
      ensures GoodKey(keyKind, items[i].key)
    {
      assert GivenKey(keyKind, items[i].key);
      if items[i].key.StrKey? { CStringIs(items[i].key.s); }
    }
  }

  /**
    A whole value, whatever is wrong with it at whatever depth, comes back exactly if it is well-formed and holds no
    blob and no NUL in a text.
   */
  lemma WholeReturnsIff(v: Value, rest: seq<Byte>)
    requires Whole(v) && Follows(rest)
    ensures Returns(v, rest) <==> Good(v) && Plain(v)
  {
    hide ReadValue, ValueBytes, Good, Given, AsRead;
    if Returns(v, rest) {
      ReadValueGives(Kind(v), ValueBytes(v) + rest);
      GivenIsGood(v);
    }
    if Good(v) {
      ValueRoundTrip(v, rest);
      SameIff(v);
    }
  }

  /** The same for a value without elements, whatever follows. */
  lemma LeafReturnsIff(v: Value, rest: seq<Byte>)
    requires !v.Container?
    ensures Returns(v, rest) <==> Good(v) && Plain(v)
  {
    hide Encode, Decode, ReadString, ReadBinary, StringBytes, BinaryBytes, ReadIntegers, CString;
    var b := ValueBytes(v) + rest;
    StringsBelow(b);
    IntegersBelow(2, b);
    IntegersBelow(3, b);
    SameIff(v);
    match v
    case Integer(n) => TdfInteger.RoundTripIff(n, rest);
    case String(s) =>
      CStringIs(s);
      if Good(v) { StringRoundTrip(s, rest); }
    case Binary(s) => if Good(v) { BinaryRoundTrip(s, rest); }
    case ObjectType(x, y) => if Good(v) { TwoIntegers(x, y, rest); }
    case ObjectId(x, y, z) => if Good(v) { ThreeIntegers(x, y, z, rest); }
  }

  /** A blob comes back as the string of its bytes, which is written as a field of another type and longer. */
  lemma BlobBecomesString(s: seq<Byte>, rest: seq<Byte>)
    requires 0 !in s && |s| < LIMIT
    ensures ReadValue(BINARY, ValueBytes(Binary(s)) + rest) == Some(Parsed(String(s), rest))
    ensures Kind(String(s)) != BINARY && |ValueBytes(String(s))| > |ValueBytes(Binary(s))|
  {
    hide Encode, ReadBinary;
    BinaryRoundTrip(s, rest);
    LongerIsLonger(|s|, |s| + 1);
  }

  /** The count of a list or map is one byte, so 256 elements or more never come back. */
  lemma LongNeverReturns(h: Head, items: seq<Item>, rest: seq<Byte>)
    requires h.IntegerListHead? || (h.ListHead? && !h.stub) || h.MapHead?
    requires |items| >= 0x100
    ensures !Returns(Container(h, items), rest)
  {
    hide ReadValue, ValueBytes;
    if Returns(Container(h, items), rest) {
      ReadValueGives(HeadKind(h), ValueBytes(Container(h, items)) + rest);
    }
  }

  /** A document of whole values comes back exactly if it is well-formed and holds no blob and no NUL in a text. */
  lemma DocumentReturnsIff(items: seq<Item>)
    requires forall i :: 0 <= i < |items| ==> Whole(items[i].value)
    ensures ReadDocument(ItemsBytes(items, |items|), []) == Some(items) <==>
            GoodDocument(items) && forall i :: 0 <= i < |items| ==> Plain(items[i].value)
  {
    hide ReadDocument, ItemsBytes, Good, Given, AsRead, Plain, Whole;
    if ReadDocument(ItemsBytes(items, |items|), []) == Some(items) {
      ReadDocumentGives(ItemsBytes(items, |items|), []);
      forall i | 0 <= i < |items|
        ensures Good(items[i].value)
      {
        GivenIsGood(items[i].value);
      }
    }
    if GoodDocument(items) {
      DocumentRoundTrip(items);
      forall i | 0 <= i < |items|
        ensures ItemAsRead(items[i]) == items[i] <==> Plain(items[i].value)
      {
        assert AnyLabel(items[i].key);
        SameIff(items[i].value);
      }
      assert ItemsAsRead(items) == items <==> forall i :: 0 <= i < |items| ==> ItemAsRead(items[i]) == items[i];
    }
  }

  lemma {:induction false} ReadDocumentGives(b: seq<Byte>, had: seq<Item>)
    requires Labelled(had) && AllGiven(had)
    ensures var r := ReadDocument(b, had); r.Some? ==> Labelled(r.value) && AllGiven(r.value)
    decreases |b|
  {
    hide ReadField, Labelled, AnyLabel, AllGiven, Given;
    if b != [] {
      match ReadField(b)
      case Failed =>
      case Skipped(rest) => ReadDocumentGives(rest, had);
      case Found(name, value, rest) =>
        FieldLabel(b);
        ReadFieldGives(b);
        PutKeeps(had, Label(name), value);
        ReadDocumentGives(rest, Add(false, had, name, value));
    }
  }

  // ---------- the others ----------

  lemma UnionBytes(address: nat, items: seq<Item>, rest: seq<Byte>)
    ensures var b := ValueBytes(Container(UnionHead(address), items)) + rest;
            b != [] && b[0] == address % 0x100 && (items == [] ==> b[1..] == rest)
  {
    hide ItemsBytes;
    NoItems(items);
  }

  /** A union with an address but no member swallows what follows it. */
  lemma OpenNeverReturns(address: nat, rest: seq<Byte>)
    requires address != UNSET
    ensures !Returns(Container(UnionHead(address), []), rest)
  {
    hide ReadField, ItemsBytes, ValueBytes;
    var b := ValueBytes(Container(UnionHead(address), [])) + rest;
    UnionBytes(address, [], rest);
    assert Returns(Container(UnionHead(address), []), rest) ==>
           ReadUnion(b) == Some(Parsed(Container(UnionHead(address), []), rest));
  }

  // ---------- stub lists ----------

  function Bare(items: seq<Item>): (r: seq<Item>)
    ensures |r| == |items| && forall i :: 0 <= i < |r| ==> r[i] == Item(NoKey, items[i].value)
  {
    if items == [] then [] else [Item(NoKey, items[0].value)] + Bare(items[1..])
  }

  /** Members read into an array lose their labels. */
  lemma {:induction false} MembersBecomeBare(items: seq<Item>, had: seq<Item>, rest: seq<Byte>)
    requires GoodMembers(items) && forall i :: 0 <= i < |items| ==> Good(items[i].value)
    ensures ReadMembers(true, ItemsBytes(items, |items|) + ([0] + rest), had)
         == Some(Parts(had + Bare(ItemsAsRead(items)), rest))
    decreases items
  {
    hide ReadMembers, ItemBytes, ItemsBytes, Good, GoodMembers, AsRead, ItemsAsRead;
    ReadFirst(items);
    if items == [] {
      NoItems(items);
      assert [] + ([0] + rest) == [0] + rest;
      assert ([0] + rest)[1..] == rest && had + [] == had;
      ZeroEnds(true, [0] + rest, had);
    } else {
      var body, more := ItemsBytes(items[1..], |items| - 1), Bare(ItemsAsRead(items[1..]));
      var first := Item(NoKey, AsRead(items[0].value));
      FirstItem(items, |items|);
      Joined(ItemBytes(items[0]), body, [0] + rest);
      Joined(had, [first], more);
      RestIsGood(items);
      assert Labelled(items[1..]);
      LabelsFollow(items[1..], [0] + rest);
      MemberStep(true, items[0], body + ([0] + rest), had);
      MembersBecomeBare(items[1..], had + [first], rest);
      BareFirst(items);
    }
  }

  lemma BareFirst(items: seq<Item>)
    requires items != []
    ensures Bare(ItemsAsRead(items)) == [Item(NoKey, AsRead(items[0].value))] + Bare(ItemsAsRead(items[1..]))
  {
    hide AsRead;
  }

  lemma ZeroEnds(inArray: bool, b: seq<Byte>, had: seq<Item>)
    requires b != [] && b[0] == 0
    ensures ReadMembers(inArray, b, had) == Some(Parts(had, b[1..]))
  {}

  lemma RestIsGood(items: seq<Item>)
    requires GoodMembers(items) && items != []
    ensures GoodLabel(items[0].key) && GoodMembers(items[1..])
  {}

  /** The number of constructors in a value. */
  function Size(v: Value): (n: nat)
    ensures n > 0
    decreases v
  {
    if v.Container? then 1 + SizeOf(v.items) else 1
  }

  function SizeOf(items: seq<Item>): nat
    decreases items
  {
    if items == [] then 0 else ItemSize(items[0]) + SizeOf(items[1..])
  }

  function ItemSize(item: Item): nat
    decreases item
  {
    Size(item.value)
  }

  lemma {:induction false} SameSize(v: Value)
    ensures Size(AsRead(v)) == Size(v)
    decreases v
  {
    if v.Container? { SameSizes(v.items); }
  }

  lemma {:induction false} SameSizes(items: seq<Item>)
    ensures SizeOf(ItemsAsRead(items)) == SizeOf(items)
    decreases items
  {
    if items != [] {
      ItemSameSize(items[0]);
      SameSizes(items[1..]);
      ReadFirst(items);
      assert ItemsAsRead(items)[1..] == ItemsAsRead(items[1..]);
    }
  }

  lemma {:induction false} ItemSameSize(item: Item)
    ensures ItemSize(ItemAsRead(item)) == ItemSize(item)
    decreases item
  {
    SameSize(item.value);
  }

  /** No value is what is read of its own first element. */
  lemma NotInItself(v: Value)
    requires v.Container? && v.items != []
    ensures AsRead(v.items[0].value) != v
  {
    SameSize(v.items[0].value);
    assert Size(v) == 1 + (ItemSize(v.items[0]) + SizeOf(v.items[1..]));
  }

  /**
    A stub list of structs never comes back: the writer neither writes headers for its elements nor ends it,
    while the reader expects fields up to a zero byte.
   */
  lemma StubNeverReturns(items: seq<Item>, rest: seq<Byte>)
    requires forall i :: 0 <= i < |items| ==>
      Kind(items[i].value) == STRUCT && Whole(items[i].value) && items[i].key == NoKey
    ensures !Returns(Container(ListHead(STRUCT, true), items), rest)
  {
    hide Good, Whole, ReadMembers, ReadList, ItemsBytes, AsRead, ItemsAsRead;
    var stub := Container(ListHead(STRUCT, true), items);
    StubIs(items, rest);
    if items == [] {
      EmptyStub(rest);
    } else if Returns(stub, rest) {
      ReadValueGives(LIST, ValueBytes(stub) + rest);
      var v := items[0].value;
      assert Given(stub) && Given(v);
      GivenIsGood(v);
      StructIsGood(v);
      var more := ItemsBytes(items[1..], |items| - 1) + rest;
      StructFirst(items, rest);
      MembersBecomeBare(v.items, [], more);
      var bare := Bare(ItemsAsRead(v.items));
      assert [] + bare == bare;
      assert bare == items;
      assert items[0].value == AsRead(v.items[0].value);
      NotInItself(v);
    }
  }

  lemma EmptyStub(rest: seq<Byte>)
    ensures !Returns(Container(ListHead(STRUCT, true), []), rest)
  {
    hide ReadMembers, ReadList, ItemsBytes;
    StubIs([], rest);
    NoItems([]);
    assert [] + rest == rest;
  }

  /** What the reader makes of the bytes of a stub list. */
  lemma StubIs(items: seq<Item>, rest: seq<Byte>)
    ensures var v := Container(ListHead(STRUCT, true), items);
            ReadValue(LIST, ValueBytes(v) + rest)
            == Wrap(ListHead(STRUCT, true), ReadMembers(true, ItemsBytes(items, |items|) + rest, []))
  {
    hide ReadMembers, ItemsBytes, ReadItems;
    var v := Container(ListHead(STRUCT, true), items);
    var b := ValueBytes(v) + rest;
    assert b[0] == STRUCT && b[2] == STUB && b[3..] == ItemsBytes(items, |items|) + rest;
  }

  /** The first struct of a list, up to its zero byte. */
  lemma StructFirst(items: seq<Item>, rest: seq<Byte>)
    requires items != [] && items[0].key == NoKey && items[0].value.Container? && items[0].value.head == StructHead
    ensures var members := items[0].value.items;
            ItemsBytes(items, |items|) + rest
            == ItemsBytes(members, |members|) + ([0] + (ItemsBytes(items[1..], |items| - 1) + rest))
  {
    hide ValueBytes, ItemsBytes;
    var members := items[0].value.items;
    StructBytes(members);
    FirstBytes(items);
    assert items[0].value == Container(StructHead, members);
    Regroup(ItemsBytes(members, |members|), ItemsBytes(items[1..], |items| - 1), rest);
  }

  lemma FirstBytes(items: seq<Item>)
    requires items != [] && items[0].key == NoKey
    ensures ItemsBytes(items, |items|) == ValueBytes(items[0].value) + ItemsBytes(items[1..], |items| - 1)
  {
    hide ValueBytes;
    assert [] + ValueBytes(items[0].value) == ValueBytes(items[0].value);
  }

  lemma Regroup(m: seq<Byte>, t: seq<Byte>, rest: seq<Byte>)
    ensures (m + [0]) + t + rest == m + ([0] + (t + rest))
  {}

  lemma StructBytes(members: seq<Item>)
    ensures ValueBytes(Container(StructHead, members)) == ItemsBytes(members, |members|) + [0]
  {
    hide ItemsBytes;
  }

  lemma StructIsGood(v: Value)
    requires Good(v) && Kind(v) == STRUCT
    ensures v.Container? && v.head == StructHead && GoodMembers(v.items)
    ensures forall i :: 0 <= i < |v.items| ==> Good(v.items[i].value)
  {}

  /** Stub lists of other kinds are read as ordinary lists. */
  lemma OtherStub(kind: nat, items: seq<Item>, rest: seq<Byte>)
    requires kind != STRUCT
    ensures !Returns(Container(ListHead(kind, true), items), rest)
  {
    hide ReadMembers, ReadItems, ItemsBytes;
    var b := ValueBytes(Container(ListHead(kind, true), items)) + rest;
    assert b[0] == kind % 0x100;
    assert ReadValue(LIST, b) == ReadList(b);
  }

  // ---------- all values ----------

  /**
    A value whose elements are whole, whatever it is itself and whatever is wrong with them at whatever depth, comes
    back exactly if it is well-formed and holds no blob and no NUL in a text. Of stub lists this is said for those that
    hold structs, which is what their writer is for.
   */
  lemma ReturnsIff(v: Value, rest: seq<Byte>)
    requires Follows(rest) && (v.Container? ==> forall i :: 0 <= i < |v.items| ==> Whole(v.items[i].value))
    requires v.Container? && v.head == ListHead(STRUCT, true) ==>
      forall i :: 0 <= i < |v.items| ==> Kind(v.items[i].value) == STRUCT && v.items[i].key == NoKey
    ensures Returns(v, rest) <==> Good(v) && Plain(v)
  {
    hide Returns, Plain;
    if !v.Container? {
      LeafReturnsIff(v, rest);
    } else if v.head.ListHead? && v.head.stub {
      if v.head.kind == STRUCT { StubNeverReturns(v.items, rest); } else { OtherStub(v.head.kind, v.items, rest); }
    } else if v.head.UnionHead? && v.head.address != UNSET && v.items == [] {
      OpenNeverReturns(v.head.address, rest);
    } else {
      WholeReturnsIff(v, rest);
    }
  }

  /** So a container of well-formed, plain values comes back exactly if it may hold them. */
  lemma ContainerReturnsIff(h: Head, items: seq<Item>, rest: seq<Byte>)
    requires Follows(rest) && forall i :: 0 <= i < |items| ==> Good(items[i].value) && PlainItem(items[i])
    requires h == ListHead(STRUCT, true) ==>
      forall i :: 0 <= i < |items| ==> Kind(items[i].value) == STRUCT && items[i].key == NoKey
    ensures Returns(Container(h, items), rest) <==> GoodItems(h, items)
  {
    hide Returns;
    forall i | 0 <= i < |items| {
      GoodIsWhole(items[i].value);
    }
    ReturnsIff(Container(h, items), rest);
  }

  lemma StructReturnsIff(items: seq<Item>, rest: seq<Byte>)
    requires Follows(rest) && forall i :: 0 <= i < |items| ==> Good(items[i].value) && PlainItem(items[i])
    ensures Returns(Container(StructHead, items), rest) <==> GoodMembers(items)
  {
    ContainerReturnsIff(StructHead, items, rest);
  }

  lemma UnionReturnsIff(address: nat, items: seq<Item>, rest: seq<Byte>)
    requires Follows(rest) && forall i :: 0 <= i < |items| ==> Good(items[i].value) && PlainItem(items[i])
    ensures Returns(Container(UnionHead(address), items), rest) <==>
            address < 0x100 && Labelled(items) && |items| == if address == UNSET then 0 else 1
  {
    ContainerReturnsIff(UnionHead(address), items, rest);
  }

  lemma ListReturnsIff(kind: nat, items: seq<Item>, rest: seq<Byte>)
    requires Follows(rest) && forall i :: 0 <= i < |items| ==> Good(items[i].value) && PlainItem(items[i])
    ensures Returns(Container(ListHead(kind, false), items), rest) <==>
            kind < 0x100 && |items| < 0x100 && Elements(None, kind, items)
  {
    ContainerReturnsIff(ListHead(kind, false), items, rest);
  }

  lemma MapReturnsIff(keyKind: nat, kind: nat, items: seq<Item>, rest: seq<Byte>)
    requires Follows(rest) && forall i :: 0 <= i < |items| ==> Good(items[i].value) && PlainItem(items[i])
    ensures Returns(Container(MapHead(keyKind, kind), items), rest) <==>
            keyKind < 0x100 && kind < 0x100 && |items| < 0x100 && Elements(Some(keyKind), kind, items)
  {
    ContainerReturnsIff(MapHead(keyKind, kind), items, rest);
  }
}
