/** The format in plain bytes, one of each kind, and what the parser makes of repeated labels and malformed fields. */
module TdfWire {
  import opened Wrappers
  import opened TdfInteger
  import opened TdfLabel
  import opened Tdf

  // ---------- one of each kind ----------

  const AB: seq<Byte> := [65, 66]

  lemma {:induction false} FieldOfAB(v: Value)
    ensures ItemsBytes([Item(Label(AB), v)], 1) == [134, 32, 0, Kind(v)] + ValueBytes(v)
  {
    hide HeaderBytes, ValueBytes, Kind, CString;
    CStringUpToNul(AB);
    assert CString(AB) == AB;
    HeaderBits(AB, Kind(v));
    OneItem([Item(Label(AB), v)]);
  }

  /** Numbers: six bits in the first byte, seven in the others. */
  lemma NumberBytes()
    ensures ValueBytes(Integer(5)) == [5] && ValueBytes(Integer(100)) == [164, 1]
    ensures ValueBytes(Integer(100000)) == [160, 154, 12]
  {
    assert EncodeMore(1) == [1] && EncodeMore(12) == [12] && EncodeMore(1562) == [154] + EncodeMore(12);
  }

  /** The other payloads without elements. */
  lemma LeafBytes()
    ensures ValueBytes(String(AB)) == [3, 65, 66, 0] && ValueBytes(Binary(AB)) == [2, 65, 66]
    ensures ValueBytes(ObjectType(1, 2)) == [1, 2] && ValueBytes(ObjectId(1, 2, 3)) == [1, 2, 3]
  {
    hide CString, EncodeMore;
    CStringUpToNul(AB);
    assert CString(AB) == AB;
  }

  /** Those with elements, the end of a struct and of the elements of a stub list included. */
  lemma ContainerBytes()
    ensures ValueBytes(Container(StructHead, [Item(Label(AB), Integer(5))])) == [134, 32, 0, 0, 5, 0]
    ensures ValueBytes(Container(UnionHead(0), [Item(Label(AB), Integer(5))])) == [0, 134, 32, 0, 0, 5]
    ensures ValueBytes(Container(UnionHead(0x7F), [Item(Label(AB), Integer(5))])) == [0x7F]
    ensures var numbers := [Item(NoKey, Integer(5)), Item(NoKey, Integer(6))];
            && ValueBytes(Container(ListHead(0, false), numbers)) == [0, 2, 5, 6]
            && ValueBytes(Container(IntegerListHead, numbers)) == [2, 5, 6]
  {
    hide HeaderBytes, CString, KeyBytes;
    FieldOfAB(Integer(5));
    TwoNumbers();
  }

  lemma TwoNumbers()
    ensures ItemsBytes([Item(NoKey, Integer(5)), Item(NoKey, Integer(6))], 2) == [5, 6]
  {
    var items := [Item(NoKey, Integer(5)), Item(NoKey, Integer(6))];
    FirstItem(items, 2);
    assert items[1..] == [Item(NoKey, Integer(6))];
    OneItem(items[1..]);
  }

  /** Structs in a stub list and in a plain one. */
  lemma StructListBytes()
    ensures var inner := Container(StructHead, [Item(Label(AB), Integer(5))]);
            && ValueBytes(Container(ListHead(3, true), [Item(NoKey, inner)])) == [3, 1, 2, 134, 32, 0, 0, 5, 0]
            && ValueBytes(Container(ListHead(3, false), [Item(NoKey, inner)])) == [3, 1, 134, 32, 0, 0, 5, 0]
  {
    hide HeaderBytes, CString, StringBytes;
    ContainerBytes();
    OneItem([Item(NoKey, Container(StructHead, [Item(Label(AB), Integer(5))]))]);
  }

  /** Maps from numbers to texts and from texts to numbers. */
  lemma MapBytes()
    ensures ValueBytes(Container(MapHead(0, 1), [Item(IntKey(7), String(AB))])) == [0, 1, 1, 7, 3, 65, 66, 0]
    ensures ValueBytes(Container(MapHead(1, 0), [Item(StrKey(AB), Integer(5))])) == [1, 0, 1, 3, 65, 66, 0, 5]
  {
    hide HeaderBytes, CString, StringBytes;
    LeafBytes();
    assert StringBytes(AB) == ValueBytes(String(AB)) == [3, 65, 66, 0];
    OneItem([Item(IntKey(7), String(AB))]);
    OneItem([Item(StrKey(AB), Integer(5))]);
  }

  /** The type of each kind, as it stands in the last byte of a header. */
  lemma KindBytes(v: Value)
    ensures var b := ItemsBytes([Item(Label(AB), v)], 1);
            |b| > 3 && b[3] ==
            match v
            case Integer(_) => 0
            case String(_) => 1
            case Binary(_) => 2
            case ObjectType(_, _) => 8
            case ObjectId(_, _, _) => 9
            case Container(StructHead, _) => 3
            case Container(ListHead(_, _), _) => 4
            case Container(MapHead(_, _), _) => 5
            case Container(UnionHead(_), _) => 6
            case Container(IntegerListHead, _) => 7
  {
    hide ValueBytes;
    FieldOfAB(v);
  }

  // ---------- repeated labels, unknown types, headers cut short ----------

  /** Fields whose labels are valid, though some may be the same. */
  predicate Fields(items: seq<Item>) {
    forall i :: 0 <= i < |items| ==> AnyLabel(items[i].key) && Good(items[i].value)
  }

  /** The labels of `items` are those of `r`, once each, and each has the value of the last field with it. */
  ghost predicate LastOfEach(items: seq<Item>, r: seq<Item>) {
    && DistinctKeys(r)
    && (forall j :: 0 <= j < |r| ==> HasKey(items, r[j].key))
    && (forall i :: 0 <= i < |items| ==> HasKey(r, items[i].key))
    && forall i, j :: 0 <= i < |items| && 0 <= j < |r| && items[i].key == r[j].key && !HasKey(items[i + 1..], r[j].key)
         ==> r[j].value == AsRead(items[i].value)
  }

  ghost predicate HasKey(items: seq<Item>, key: Key) {
    exists i :: 0 <= i < |items| && items[i].key == key
  }

  /** Putting a value under a label sets that one and no other; a new one comes last. */
  lemma {:induction false} PutSets(had: seq<Item>, key: Key, value: Value)
    requires DistinctKeys(had)
    ensures var r := Put(had, key, value);
            && |r| == |had| + (if HasKey(had, key) then 0 else 1)
            && (forall j :: 0 <= j < |had| ==> r[j] == if had[j].key == key then Item(key, value) else had[j])
            && (|r| > |had| ==> r[|had|] == Item(key, value))
  {
    if had != [] {
      assert forall j :: 0 < j < |had| ==> had[j] == had[1..][j - 1];
      if had[0].key == key {
        assert forall j :: 0 < j < |had| ==> had[j].key != had[0].key;
      } else {
        PutSets(had[1..], key, value);
        assert Put(had, key, value) == [had[0]] + Put(had[1..], key, value);
        TailKeys(had, key);
      }
    }
  }

  lemma TailKeys(had: seq<Item>, key: Key)
    requires had != [] && had[0].key != key
    ensures HasKey(had, key) <==> HasKey(had[1..], key)
  {
    if i :| 0 <= i < |had| && had[i].key == key {
      assert had[1..][i - 1].key == key;
    }
    if i :| 0 <= i < |had| - 1 && had[1..][i].key == key {
      assert had[i + 1].key == key;
    }
  }

  lemma PutKeys(had: seq<Item>, key: Key, value: Value)
    requires DistinctKeys(had)
    ensures var r := Put(had, key, value);
            && DistinctKeys(r) && HasKey(r, key) && |had| <= |r| <= |had| + 1
            && (forall j :: 0 <= j < |had| ==> r[j].key == had[j].key)
            && (forall j :: 0 <= j < |r| ==>
                  r[j] == Item(key, value) || (j < |had| && r[j] == had[j] && r[j].key != key))
  {
    hide Put;
    PutSets(had, key, value);
    if j :| 0 <= j < |had| && had[j].key == key {
      assert Put(had, key, value)[j].key == key;
    } else {
      assert Put(had, key, value)[|had|].key == key;
    }
  }

  /** One more field read. */
  lemma LastOfMore(items: seq<Item>, had: seq<Item>, item: Item)
    requires LastOfEach(items, had)
    ensures LastOfEach(items + [item], Put(had, item.key, AsRead(item.value)))
  {
    hide AsRead, Put;
    var r, all := Put(had, item.key, AsRead(item.value)), items + [item];
    PutKeys(had, item.key, AsRead(item.value));
    assert all[|items|].key == item.key;
    forall key | HasKey(items, key)
      ensures HasKey(all, key)
    {
      var i :| 0 <= i < |items| && items[i].key == key;
      assert all[i].key == key;
    }
    forall key | HasKey(had, key)
      ensures HasKey(r, key)
    {
      var j :| 0 <= j < |had| && had[j].key == key;
      assert r[j].key == key;
    }
    forall i, j | 0 <= i < |all| && 0 <= j < |r| && all[i].key == r[j].key && !HasKey(all[i + 1..], r[j].key)
      ensures r[j].value == AsRead(all[i].value)
    {
      if i < |items| {
        assert all[i + 1..] == items[i + 1..] + [item];
        assert (items[i + 1..] + [item])[|items| - i - 1] == item;
        LaterKeys(items[i + 1..], item, r[j].key);
      }
    }
  }

  lemma LaterKeys(items: seq<Item>, item: Item, key: Key)
    ensures HasKey(items + [item], key) <==> HasKey(items, key) || item.key == key
  {
    var all := items + [item];
    assert all[|items|] == item;
    if i :| 0 <= i < |items| && items[i].key == key {
      assert all[i].key == key;
    }
  }

  lemma {:induction false} FieldsReadFrom(done: seq<Item>, items: seq<Item>, had: seq<Item>) returns (r: seq<Item>)
    requires Fields(items) && LastOfEach(done, had)
    ensures ReadDocument(ItemsBytes(items, |items|), had) == Some(r) && LastOfEach(done + items, r)
    decreases items
  {
    hide ReadField, ItemBytes, ItemsBytes, Good, LastOfEach, AsRead;
    if items == [] {
      NoItems(items);
      assert done + items == done;
      r := had;
    } else {
      var item, body := items[0], ItemsBytes(items[1..], |items| - 1);
      FirstItem(items, |items|);
      LabelsFollow(items[1..], []);
      assert body + [] == body;
      FieldRoundTrip(item, body);
      LastOfMore(done, had, item);
      LabelsFollow(items, []);
      assert ItemsBytes(items, |items|) + [] == ItemsBytes(items, |items|);
      r := FieldsReadFrom(done + [item], items[1..], Put(had, item.key, AsRead(item.value)));
      assert done + [item] + items[1..] == done + items;
    }
  }

  /** Of fields with the same label the parser keeps the last. */
  lemma {:induction false} LastWins(items: seq<Item>) returns (r: seq<Item>)
    requires Fields(items)
    ensures ReadDocument(ItemsBytes(items, |items|), []) == Some(r) && LastOfEach(items, r)
  {
    r := FieldsReadFrom([], items, []);
    assert [] + items == items;
  }

  /** A header whose type is not one of the ten is passed over, with no payload. */
  lemma UnknownIsSkipped(header: seq<Byte>, rest: seq<Byte>, had: seq<Item>)
    requires |header| == 4 && header[3] > 9
    ensures ReadDocument(header + rest, had) == ReadDocument(rest, had)
  {
    hide HeaderKind, HeaderLabel, ReadValue;
    LabelBits(header);
    assert (header + rest)[..4] == header && (header + rest)[4..] == rest;
  }

  /** A document that ends within a header cannot be read; one that ends after a header lacks that field only. */
  lemma HeaderCutShort(b: seq<Byte>, had: seq<Item>)
    requires 0 < |b| <= 4
    ensures ReadDocument(b, had) == if |b| == 4 then Some(had) else None
  {
    hide HeaderKind, HeaderLabel, ReadValue;
    assert ReadDocument([], had) == Some(had);
  }

  // ---------- what else the parser makes of bytes ----------

  /** The same inside a struct or a stub list. */
  lemma UnknownMemberIsSkipped(inArray: bool, header: seq<Byte>, rest: seq<Byte>, had: seq<Item>)
    requires |header| == 4 && header[0] != 0 && header[3] > 9
    ensures ReadMembers(inArray, header + rest, had) == ReadMembers(inArray, rest, had)
  {
    hide HeaderKind, HeaderLabel, ReadValue;
    LabelBits(header);
    assert (header + rest)[..4] == header && (header + rest)[4..] == rest;
  }

  /** A union whose member is of an unknown type has none, and one cut short after its address cannot be read. */
  lemma UnionOfUnknown(address: Byte, header: seq<Byte>, rest: seq<Byte>)
    requires address != 0x7F && |header| == 4 && header[3] > 9
    ensures ReadValue(6, [address] + header + rest) == Some(Parsed(Container(UnionHead(address), []), rest))
    ensures ReadValue(6, [address]) == None
  {
    hide HeaderKind, HeaderLabel;
    LabelBits(header);
    var b := [address] + header + rest;
    assert b[1..] == header + rest;
    assert (header + rest)[..4] == header && (header + rest)[4..] == rest;
    assert ReadField(header + rest) == Skipped(rest);
    assert ReadUnion(b) == Some(Parsed(Container(UnionHead(address), []), rest));
  }

  /** A text needs a length of at least one, and that many bytes; its last byte is not looked at. */
  lemma TextIff(length: nat, rest: seq<Byte>)
    requires length < LIMIT
    ensures ReadValue(1, Encode(length) + rest).Some? <==> 0 < length <= |rest|
    ensures 0 < length <= |rest| ==>
              ReadValue(1, Encode(length) + rest) == Some(Parsed(String(rest[..length - 1]), rest[length..]))
  {
    hide Encode, Decode, ReadValue;
    TdfInteger.RoundTripIff(length, rest);
    TextIsString(Encode(length) + rest);
  }

  lemma TextIsString(b: seq<Byte>)
    ensures ReadValue(1, b) ==
            match ReadString(b)
            case None => None
            case Some(r) => Some(Parsed(String(r.0), r.1))
  {
    hide ReadString;
  }

  /** Of lists exactly those of other types than integers, texts and structs are read as empty, whatever their count. */
  lemma UnknownListIff(kind: Byte, n: Byte, rest: seq<Byte>)
    requires n > 0 && (kind == 3 ==> rest == [] || rest[0] != 2)
    ensures ReadValue(4, [kind, n] + rest) == Some(Parsed(Container(ListHead(kind, false), []), rest)) <==>
            kind !in {0, 1, 3}
  {
    hide ReadMembers, ReadItems;
    var b := [kind, n] + rest;
    assert b[2..] == rest;
    if !Element(kind) { NoneKnown(n, kind, rest); }
  }

  lemma {:induction false} NoneKnown(n: nat, kind: nat, b: seq<Byte>)
    requires !Element(kind)
    ensures ReadItems(n, None, kind, b) == Some(Parts([], b))
  {
    if n > 0 { NoneKnown(n - 1, kind, b); }
  }

  /** A map with entries is not read if its keys are neither integers nor texts, or its values of no known type. */
  lemma UnknownMap(keyKind: Byte, kind: Byte, n: Byte, rest: seq<Byte>)
    requires n > 0 && (keyKind > 1 || kind !in {0, 1, 3})
    ensures ReadValue(5, [keyKind, kind, n] + rest) == None
  {
    hide ReadMembers, ReadValue;
    var b := [keyKind, kind, n] + rest;
    assert b[3..] == rest;
    MapIsItems(b);
  }

  lemma MapIsItems(b: seq<Byte>)
    requires |b| >= 3
    ensures ReadValue(5, b) == Wrap(MapHead(b[0], b[1]), ReadItems(b[2], Some(b[0]), b[1], b[3..]))
  {
    hide ReadItems;
  }

  /**
    Counts are cut to a byte. Of a long list only so many elements are sent; a map, a stub list and a union send all
    they have (`MapCounts`, `StubCounts`, `UnionCounts`).
   */
  lemma ListCounts(kind: Byte, items: seq<Item>)
    ensures ValueBytes(Container(ListHead(kind, false), items)) ==
            [kind, |items| % 256] + ItemsBytes(items, |items| % 256)
  {
    hide ItemsBytes;
    NothingAfter(ItemsBytes(items, |items| % 256));
  }

  lemma IntegerListCounts(items: seq<Item>)
    ensures ValueBytes(Container(IntegerListHead, items)) == [|items| % 256] + ItemsBytes(items, |items| % 256)
  {
    hide ItemsBytes;
    NothingAfter(ItemsBytes(items, |items| % 256));
  }

  lemma MapCounts(keyKind: Byte, kind: Byte, items: seq<Item>)
    ensures ValueBytes(Container(MapHead(keyKind, kind), items)) ==
            [keyKind, kind, |items| % 256] + ItemsBytes(items, |items|)
  {
    hide ItemsBytes;
    NothingAfter(ItemsBytes(items, |items|));
  }

  lemma StubCounts(kind: Byte, items: seq<Item>)
    ensures ValueBytes(Container(ListHead(kind, true), items)) ==
            [kind, |items| % 256, 2] + ItemsBytes(items, |items|)
  {
    hide ItemsBytes;
    NothingAfter(ItemsBytes(items, |items|));
  }

  lemma UnionCounts(address: Byte, items: seq<Item>)
    ensures ValueBytes(Container(UnionHead(address), items)) ==
            [address] + if address == 0x7F then [] else ItemsBytes(items, |items|)
  {
    hide ItemsBytes;
    NothingAfter(ItemsBytes(items, |items|));
    NoItems(items);
  }

  lemma NothingAfter(b: seq<Byte>)
    ensures b + [] == b
  {}
}
