/** The recursive writer and the recursive-descent parser, working on a buffer. */
module TdfCodec {
  import opened Wrappers
  import opened TdfInteger
  import opened TdfLabel
  import opened Tdf
  import opened TdfBuffer

  // ---------- writer ----------

  lemma {:induction false} ItemsGrow(items: seq<Item>, i: nat)
    requires i < |items|
    ensures ItemsBytes(items, i + 1) == ItemsBytes(items, i) + ItemBytes(items[i])
  {
    hide ItemBytes;
    if i == 0 {
      assert ItemsBytes(items[1..], 0) == [];
    } else {
      ItemsGrow(items[1..], i - 1);
      assert items[1..][i - 1] == items[i];
      var first, middle, last := ItemBytes(items[0]), ItemsBytes(items[1..], i - 1), ItemBytes(items[i]);
      assert ItemsBytes(items, i + 1) == first + (middle + last);
      assert first + (middle + last) == (first + middle) + last;
    }
  }

  method WriteString(buffer: DataBuffer, s: seq<Byte>)
    requires buffer.Valid()
    modifies buffer
    ensures buffer.Valid() && buffer.Wrote(StringBytes(s))
    ensures SentString(buffer.bytes[old(buffer.position)..buffer.position], s)
  {
    hide Splice, Encode, SentString;
    StringIsSent(s);
    ghost var start, at := buffer.bytes, buffer.position;
    var str := CString(s);
    buffer.EncodeTdfInteger(|str| + 1);
    SpliceTwice(start, at, Encode(|str| + 1), str);
    buffer.Write(str);
    SpliceTwice(start, at, Encode(|str| + 1) + str, [0]);
    buffer.Write([0]);
  }

  method WriteBinary(buffer: DataBuffer, s: seq<Byte>)
    requires buffer.Valid()
    modifies buffer
    ensures buffer.Valid() && buffer.Wrote(BinaryBytes(s))
    ensures SentBlob(buffer.bytes[old(buffer.position)..buffer.position], s)
  {
    hide Splice, Encode, SentBlob;
    BlobIsSent(s);
    ghost var start, at := buffer.bytes, buffer.position;
    var str := CString(s);
    buffer.EncodeTdfInteger(|str|);
    SpliceTwice(start, at, Encode(|str|), str);
    buffer.Write(str);
  }

  /** The header of a field, the key of a map entry, or nothing. */
  method WriteKey(buffer: DataBuffer, key: Key, kind: Byte)
    requires buffer.Valid()
    modifies buffer
    ensures buffer.Valid() && buffer.Wrote(KeyBytes(key, kind))
    ensures key.StrKey? ==> SentString(buffer.bytes[old(buffer.position)..buffer.position], key.s)
  {
    hide Splice, Encode, StringBytes, HeaderBytes, SentString;
    match key {
      case NoKey => SpliceNothing(buffer.bytes, buffer.position);
      case Label(name) => buffer.Write(HeaderBytes(CString(name), kind));
      case IntKey(n) => buffer.EncodeTdfInteger(n);
      case StrKey(s) => WriteString(buffer, s);
    }
  }

  /** `WriteType` */
  method WriteValue(buffer: DataBuffer, v: Value)
    requires buffer.Valid()
    modifies buffer
    ensures buffer.Valid() && buffer.Wrote(ValueBytes(v))
    ensures v.String? ==> SentString(buffer.bytes[old(buffer.position)..buffer.position], v.s)
    ensures v.Binary? ==> SentBlob(buffer.bytes[old(buffer.position)..buffer.position], v.s)
    decreases v
  {
    hide Splice, Encode, StringBytes, BinaryBytes, ItemsBytes, SentString, SentBlob;
    ghost var start, at := buffer.bytes, buffer.position;
    match v {
      case Integer(n) => buffer.EncodeTdfInteger(n);
      case String(s) => WriteString(buffer, s);
      case Binary(s) => WriteBinary(buffer, s);
      case ObjectType(x, y) =>
        buffer.EncodeTdfInteger(x);
        SpliceTwice(start, at, Encode(x), Encode(y));
        buffer.EncodeTdfInteger(y);
      case ObjectId(x, y, z) =>
        buffer.EncodeTdfInteger(x);
        SpliceTwice(start, at, Encode(x), Encode(y));
        buffer.EncodeTdfInteger(y);
        SpliceTwice(start, at, Encode(x) + Encode(y), Encode(z));
        buffer.EncodeTdfInteger(z);
      case Container(h, items) => WriteContainer(buffer, h, items);
    }
  }

  /** What comes before the elements, the elements, and the end of a struct. */
  method WriteContainer(buffer: DataBuffer, h: Head, items: seq<Item>)
    requires buffer.Valid()
    modifies buffer
    ensures buffer.Valid() && buffer.Wrote(ValueBytes(Container(h, items)))
    decreases items, 1
  {
    hide Splice, ItemsBytes;
    ghost var start, at := buffer.bytes, buffer.position;
    ghost var head, body := HeadBytes(h, |items|), ItemsBytes(items, Written(h, |items|));
    buffer.Write(HeadBytes(h, |items|));
    SpliceTwice(start, at, head, body);
    WriteItems(buffer, items, Written(h, |items|));
    if h == StructHead {
      SpliceTwice(start, at, head + body, [0]);
      buffer.Write([0]);
      assert head + body + [0] == head + (body + [0]);
    } else {
      assert head + (body + []) == head + body;
    }
  }

  /** The loops over the elements of a container or a document. */
  method WriteItems(buffer: DataBuffer, items: seq<Item>, n: nat)
    requires buffer.Valid() && n <= |items|
    modifies buffer
    ensures buffer.Valid() && buffer.Wrote(ItemsBytes(items, n))
    decreases items, 0
  {
    hide Splice, ItemBytes;
    ghost var start, at := buffer.bytes, buffer.position;
    SpliceNothing(start, at);
    for i := 0 to n
      invariant buffer.Valid() && at <= |start|
      invariant buffer.bytes == Splice(start, at, ItemsBytes(items, i))
      invariant buffer.position == at + |ItemsBytes(items, i)|
    {
      SpliceTwice(start, at, ItemsBytes(items, i), ItemBytes(items[i]));
      ItemsGrow(items, i);
      WriteItem(buffer, items[i]);
    }
  }

  /** `Write` of one element: its key, then its payload. */
  method WriteItem(buffer: DataBuffer, item: Item)
    requires buffer.Valid()
    modifies buffer
    ensures buffer.Valid() && buffer.Wrote(ItemBytes(item))
    decreases item
  {
    hide Splice, KeyBytes, ValueBytes;
    ghost var start, at := buffer.bytes, buffer.position;
    WriteKey(buffer, item.key, Kind(item.value));
    SpliceTwice(start, at, KeyBytes(item.key, Kind(item.value)), ValueBytes(item.value));
    WriteValue(buffer, item.value);
  }

  // ---------- parser ----------

  /** What one call of `ReadValue` adds to its parent. */
  datatype Outcome = Failure | Nothing | Added(name: seq<Byte>, value: Value)

  class Parser {
    var document: seq<Item>

    constructor ()
      ensures document == []
    {
      document := [];
    }

    /** `Read`: the document is replaced by the fields of the whole buffer. */
    method Read(buffer: DataBuffer) returns (ok: bool)
      requires buffer.Valid()
      modifies this, buffer`position
      ensures ok <==> ReadDocument(old(buffer.Rest()), []).Some?
      ensures ok ==> document == ReadDocument(old(buffer.Rest()), []).value && buffer.Valid() && buffer.Rest() == []
    {
      document := [];
      while buffer.position < |buffer.bytes|
        invariant buffer.Valid()
        invariant ReadDocument(buffer.Rest(), document) == ReadDocument(old(buffer.Rest()), [])
        decreases |buffer.Rest()|
      {
        var f := ReadField(buffer);
        match f {
          case Failure => return false;
          case Nothing =>
          case Added(name, value) => document := Add(false, document, name, value);
        }
      }
      ok := true;
    }

    method ReadField(buffer: DataBuffer) returns (f: Outcome)
      requires buffer.Valid()
      modifies buffer`position
      ensures buffer.Valid()
      ensures match Tdf.ReadField(old(buffer.Rest()))
              case Failed => f == Failure
              case Skipped(rest) => f == Nothing && buffer.Rest() == rest
              case Found(name, value, rest) => f == Added(name, value) && buffer.Rest() == rest
      decreases |buffer.Rest()|, 0
    {
      hide HeaderKind, HeaderLabel, Tdf.ReadValue;
      var header := buffer.Read(4);
      if header.None? {
        return Failure;
      }
      if buffer.position == |buffer.bytes| || HeaderKind(header.value) > OBJECT_ID {
        return Nothing;
      }
      var value := ReadValue(buffer, HeaderKind(header.value));
      if value.None? {
        return Failure;
      }
      f := Added(HeaderLabel(header.value), value.value);
    }

    method ReadValue(buffer: DataBuffer, kind: nat) returns (r: Option<Value>)
      requires buffer.Valid()
      modifies buffer`position
      ensures buffer.Valid()
      ensures match Tdf.ReadValue(kind, old(buffer.Rest()))
              case None => r == None
              case Some(p) => r == Some(p.value) && buffer.Rest() == p.rest
      decreases |buffer.Rest()|, 3
    {
      hide Decode, Tdf.ReadString, Tdf.ReadBinary, Tdf.ReadIntegers, Tdf.ReadMembers, Tdf.ReadItems, Tdf.ReadUnion,
        Tdf.ReadList;
      if kind == INTEGER {
        var n := buffer.DecodeTdfInteger();
        r := if n.None? then None else Some(Integer(n.value));
      } else if kind == STRING {
        var s := ReadString(buffer);
        r := if s.None? then None else Some(String(s.value));
      } else if kind == BINARY {
        var s := ReadBinary(buffer);
        r := if s.None? then None else Some(String(s.value));
      } else if kind == STRUCT {
        var items := ReadMembers(buffer, false);
        r := Filled(StructHead, items);
      } else if kind == LIST {
        r := ReadList(buffer);
      } else if kind == MAP {
        r := ReadMap(buffer);
      } else if kind == UNION {
        r := ReadUnion(buffer);
      } else if kind == INTEGER_LIST {
        var head := buffer.Read(1);
        if head.None? {
          return None;
        }
        var items := ReadItems(buffer, head.value[0], None, INTEGER);
        r := Filled(IntegerListHead, items);
      } else if kind == OBJECT_TYPE {
        var ns := ReadIntegers(buffer, 2);
        r := if ns.None? then None else Some(ObjectType(ns.value[0], ns.value[1]));
      } else if kind == OBJECT_ID {
        var ns := ReadIntegers(buffer, 3);
        r := if ns.None? then None else Some(ObjectId(ns.value[0], ns.value[1], ns.value[2]));
      } else {
        r := None;
      }
    }

    static function Filled(h: Head, items: Option<seq<Item>>): Option<Value> {
      if items.None? then None else Some(Container(h, items.value))
    }

    method ReadMap(buffer: DataBuffer) returns (r: Option<Value>)
      requires buffer.Valid()
      modifies buffer`position
      ensures buffer.Valid()
      ensures match Tdf.ReadValue(MAP, old(buffer.Rest()))
              case None => r == None
              case Some(p) => r == Some(p.value) && buffer.Rest() == p.rest
      decreases |buffer.Rest()|, 2
    {
      hide Tdf.ReadItems;
      var head := buffer.Read(3);
      if head.None? {
        return None;
      }
      var items := ReadItems(buffer, head.value[2], Some(head.value[0]), head.value[1]);
      r := Filled(MapHead(head.value[0], head.value[1]), items);
    }

    method ReadUnion(buffer: DataBuffer) returns (r: Option<Value>)
      requires buffer.Valid()
      modifies buffer`position
      ensures buffer.Valid()
      ensures match Tdf.ReadUnion(old(buffer.Rest()))
              case None => r == None
              case Some(p) => r == Some(p.value) && buffer.Rest() == p.rest
      decreases |buffer.Rest()|, 2
    {
      hide Tdf.ReadField;
      var head := buffer.Read(1);
      if head.None? {
        return None;
      }
      var address := head.value[0];
      if address == UNSET {
        return Some(Container(UnionHead(address), []));
      }
      var f := ReadField(buffer);
      match f {
        case Failure => r := None;
        case Nothing => r := Some(Container(UnionHead(address), []));
        case Added(name, value) => r := Some(Container(UnionHead(address), [Item(Label(name), value)]));
      }
    }

    method ReadList(buffer: DataBuffer) returns (r: Option<Value>)
      requires buffer.Valid()
      modifies buffer`position
      ensures buffer.Valid()
      ensures match Tdf.ReadList(old(buffer.Rest()))
              case None => r == None
              case Some(p) => r == Some(p.value) && buffer.Rest() == p.rest
      decreases |buffer.Rest()|, 2
    {
      hide Tdf.ReadItems, Tdf.ReadMembers;
      var head := buffer.Read(2);
      if head.None? {
        return None;
      }
      var kind := head.value[0];
      if buffer.position < |buffer.bytes| && buffer.bytes[buffer.position] == STUB && kind == STRUCT {
        var stub := buffer.Read(1);
        var items := ReadMembers(buffer, true);
        r := Filled(ListHead(kind, true), items);
      } else {
        var items := ReadItems(buffer, head.value[1], None, kind);
        r := Filled(ListHead(kind, false), items);
      }
    }

    /** The loops of `ReadStruct` and of stub lists. */
    method ReadMembers(buffer: DataBuffer, inArray: bool) returns (r: Option<seq<Item>>)
      requires buffer.Valid()
      modifies buffer`position
      ensures buffer.Valid()
      ensures match Tdf.ReadMembers(inArray, old(buffer.Rest()), [])
              case None => r == None
              case Some(p) => r == Some(p.items) && buffer.Rest() == p.rest
      decreases |buffer.Rest()|, 1
    {
      hide Tdf.ReadField;
      var items := [];
      while buffer.position < |buffer.bytes| && buffer.bytes[buffer.position] != 0
        invariant buffer.Valid() && |buffer.Rest()| <= |old(buffer.Rest())|
        invariant Tdf.ReadMembers(inArray, buffer.Rest(), items) == Tdf.ReadMembers(inArray, old(buffer.Rest()), [])
        decreases |buffer.Rest()|
      {
        var f := ReadField(buffer);
        match f {
          case Failure => return None;
          case Nothing =>
          case Added(name, value) => items := Add(inArray, items, name, value);
        }
      }
      var zero := buffer.Read(1);
      r := if zero.None? then None else Some(items);
    }

    /** The loops of `ReadList`, `ReadMap` and `ReadIntegerList`. */
    method ReadItems(buffer: DataBuffer, n: nat, keyKind: Option<nat>, kind: nat) returns (r: Option<seq<Item>>)
      requires buffer.Valid()
      modifies buffer`position
      ensures buffer.Valid()
      ensures match Tdf.ReadItems(n, keyKind, kind, old(buffer.Rest()))
              case None => r == None
              case Some(p) => r == Some(p.items) && buffer.Rest() == p.rest
      decreases |buffer.Rest()|, 4
    {
      hide Tdf.ReadValue, Tdf.ReadKey, After;
      var items := [];
      AfterNone(Tdf.ReadItems(n, keyKind, kind, buffer.Rest()));
      for i := 0 to n
        invariant buffer.Valid() && |buffer.Rest()| <= |old(buffer.Rest())|
        invariant Tdf.ReadItems(n, keyKind, kind, old(buffer.Rest()))
               == After(items, Tdf.ReadItems(n - i, keyKind, kind, buffer.Rest()))
      {
        ghost var all := Tdf.ReadItems(n - i, keyKind, kind, buffer.Rest());
        AfterOne(items, all);
        if Element(kind) {
          var key := ReadKey(buffer, keyKind);
          if key.None? {
            return None;
          }
          var value := ReadValue(buffer, kind);
          if value.None? {
            return None;
          }
          AfterTwo(items, Item(key.value, value.value), Tdf.ReadItems(n - i - 1, keyKind, kind, buffer.Rest()));
          items := items + [Item(key.value, value.value)];
        } else if keyKind.Some? {
          return None;
        }
      }
      r := Some(items);
      AfterOne(items, Some(Parts([], buffer.Rest())));
    }

    method ReadKey(buffer: DataBuffer, keyKind: Option<nat>) returns (r: Option<Key>)
      requires buffer.Valid()
      modifies buffer`position
      ensures buffer.Valid()
      ensures match Tdf.ReadKey(keyKind, old(buffer.Rest()))
              case None => r == None
              case Some(p) => r == Some(p.0) && buffer.Rest() == p.1
    {
      hide Decode, Tdf.ReadString;
      match keyKind {
        case None => r := Some(NoKey);
        case Some(k) =>
          if k == INTEGER {
            var n := buffer.DecodeTdfInteger();
            r := if n.None? then None else Some(IntKey(n.value));
          } else if k == STRING {
            var s := ReadString(buffer);
            r := if s.None? then None else Some(StrKey(s.value));
          } else {
            r := None;
          }
      }
    }

    method ReadIntegers(buffer: DataBuffer, n: nat) returns (r: Option<seq<nat>>)
      requires buffer.Valid()
      modifies buffer`position
      ensures buffer.Valid()
      ensures match Tdf.ReadIntegers(n, old(buffer.Rest()))
              case None => r == None
              case Some(p) => r == Some(p.0) && buffer.Rest() == p.1
    {
      hide Decode;
      if n == 0 {
        return Some([]);
      }
      var first := buffer.DecodeTdfInteger();
      if first.None? {
        return None;
      }
      var more := ReadIntegers(buffer, n - 1);
      r := if more.None? then None else Some([first.value] + more.value);
    }

    method ReadString(buffer: DataBuffer) returns (r: Option<seq<Byte>>)
      requires buffer.Valid()
      modifies buffer`position
      ensures buffer.Valid()
      ensures match Tdf.ReadString(old(buffer.Rest()))
              case None => r == None
              case Some(p) => r == Some(p.0) && buffer.Rest() == p.1
    {
      hide Decode;
      var length := buffer.DecodeTdfInteger();
      if length.None? || length.value == 0 {
        return None;
      }
      r := buffer.Read(length.value - 1);
      if r.Some? {
        var zero := buffer.Read(1);
        if zero.None? {
          r := None;
        }
      }
    }

    method ReadBinary(buffer: DataBuffer) returns (r: Option<seq<Byte>>)
      requires buffer.Valid()
      modifies buffer`position
      ensures buffer.Valid()
      ensures match Tdf.ReadBinary(old(buffer.Rest()))
              case None => r == None
              case Some(p) => r == Some(p.0) && buffer.Rest() == p.1
    {
      hide Decode;
      var length := buffer.DecodeTdfInteger();
      if length.None? {
        return None;
      }
      r := buffer.Read(length.value);
    }
  }

  /** Elements already read, before those still to come. */
  function After(items: seq<Item>, more: Option<Parts>): Option<Parts> {
    match more
    case None => None
    case Some(p) => Some(Parts(items + p.items, p.rest))
  }

  lemma AfterNone(more: Option<Parts>)
    ensures After([], more) == more
  {
    if more.Some? { assert [] + more.value.items == more.value.items; }
  }

  lemma AfterOne(items: seq<Item>, more: Option<Parts>)
    ensures more == None ==> After(items, more) == None
    ensures more.Some? && more.value.items == [] ==> After(items, more) == Some(Parts(items, more.value.rest))
  {
    assert items + [] == items;
  }

  lemma AfterTwo(items: seq<Item>, item: Item, more: Option<Parts>)
    ensures more == None ==> After(items + [item], more) == None
    ensures more.Some? ==>
              After(items + [item], more) == After(items, Some(Parts([item] + more.value.items, more.value.rest)))
  {
    if more.Some? { assert items + [item] + more.value.items == items + ([item] + more.value.items); }
  }
}
