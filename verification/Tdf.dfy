/** TDF trees, the bytes the packet writer produces for them, and what the parser makes of bytes. */
module Tdf {
  import opened Wrappers
  import opened TdfInteger
  import opened TdfLabel

  /** What an element of a container hangs under: the label of a field, the key of a map entry, or nothing in a list. */
  datatype Key = NoKey | Label(name: seq<Byte>) | IntKey(n: nat) | StrKey(s: seq<Byte>)

  datatype Head =
    | StructHead
    | UnionHead(address: nat)
    | ListHead(kind: nat, stub: bool)
    | MapHead(keyKind: nat, valueKind: nat)
    | IntegerListHead

  datatype Value =
    | Integer(n: nat)
    | String(s: seq<Byte>)
    | Binary(s: seq<Byte>)
    | ObjectType(x: nat, y: nat)
    | ObjectId(x: nat, y: nat, z: nat)
    | Container(head: Head, items: seq<Item>)

  datatype Item = Item(key: Key, value: Value)

  const INTEGER: Byte := 0
  const STRING: Byte := 1
  const BINARY: Byte := 2
  const STRUCT: Byte := 3
  const LIST: Byte := 4
  const MAP: Byte := 5
  const UNION: Byte := 6
  const INTEGER_LIST: Byte := 7
  const OBJECT_TYPE: Byte := 8
  const OBJECT_ID: Byte := 9

  /** `NetworkAddressMember::Unset` */
  const UNSET: Byte := 0x7F
  const STUB: Byte := 2

  function HeadKind(h: Head): Byte {
    match h
    case StructHead => STRUCT
    case UnionHead(_) => UNION
    case ListHead(_, _) => LIST
    case MapHead(_, _) => MAP
    case IntegerListHead => INTEGER_LIST
  }

  function Kind(v: Value): Byte {
    match v
    case Integer(_) => INTEGER
    case String(_) => STRING
    case Binary(_) => BINARY
    case ObjectType(_, _) => OBJECT_TYPE
    case ObjectId(_, _, _) => OBJECT_ID
    case Container(h, _) => HeadKind(h)
  }

  // ---------- the bytes of a tree ----------

  /** A string rebuilt from `GetString()`: it ends at the first NUL. */
  function CString(s: seq<Byte>): (c: seq<Byte>)
    ensures 0 !in s ==> c == s
  {
    if s == [] || s[0] == 0 then [] else [s[0]] + CString(s[1..])
  }

  function StringBytes(s: seq<Byte>): (b: seq<Byte>)
    ensures |b| >= 1
  {
    Encode(|CString(s)| + 1) + CString(s) + [0]
  }

  /** Text as sent: up to its first NUL, or all of it, and then one zero byte. */
  predicate ZeroEnded(body: seq<Byte>, s: seq<Byte>) {
    body != [] && body[|body| - 1] == 0 && UpToNul(body[..|body| - 1], s)
  }

  predicate UpToNul(front: seq<Byte>, s: seq<Byte>) {
    0 !in front && front <= s && (|front| < |s| ==> s[|front|] == 0)
  }

  /** As many bytes as the length in front of them says, which are such a text, or for a blob one without the end. */
  ghost predicate SentString(w: seq<Byte>, s: seq<Byte>) {
    exists body: seq<Byte> :: w == Encode(|body|) + body && ZeroEnded(body, s)
  }

  ghost predicate SentBlob(w: seq<Byte>, s: seq<Byte>) {
    exists body: seq<Byte> :: w == Encode(|body|) + body && UpToNul(body, s)
  }

  lemma {:induction false} CStringUpToNul(s: seq<Byte>)
    ensures UpToNul(CString(s), s)
  {
    if s != [] && s[0] != 0 { CStringUpToNul(s[1..]); }
  }

  lemma StringIsSent(s: seq<Byte>)
    ensures SentString(StringBytes(s), s)
  {
    hide Encode, CString;
    CStringUpToNul(s);
    var body := CString(s) + [0];
    assert body[..|body| - 1] == CString(s);
    assert StringBytes(s) == Encode(|body|) + body;
  }

  lemma BlobIsSent(s: seq<Byte>)
    ensures SentBlob(BinaryBytes(s), s)
  {
    hide Encode, CString;
    CStringUpToNul(s);
  }

  function BinaryBytes(s: seq<Byte>): seq<Byte> {
    Encode(|CString(s)|) + CString(s)
  }

  function KeyBytes(key: Key, kind: Byte): seq<Byte> {
    match key
    case NoKey => []
    case Label(name) => HeaderBytes(CString(name), kind)
    case IntKey(n) => Encode(n)
    case StrKey(s) => StringBytes(s)
  }

  /** What precedes the elements of a container with `n` of them; all of it is cut to bytes. */
  function HeadBytes(h: Head, n: nat): seq<Byte> {
    match h
    case StructHead => []
    case UnionHead(address) => [address % 0x100]
    case ListHead(kind, stub) => [kind % 0x100, n % 0x100] + if stub then [STUB] else []
    case MapHead(keyKind, valueKind) => [keyKind % 0x100, valueKind % 0x100, n % 0x100]
    case IntegerListHead => [n % 0x100]
  }

  /** How many of the `n` elements of a container are written. */
  function Written(h: Head, n: nat): (k: nat)
    ensures k <= n
  {
    match h
    case StructHead => n
    case UnionHead(address) => if address == UNSET then 0 else n
    case ListHead(_, stub) => if stub then n else n % 0x100
    case MapHead(_, _) => n
    case IntegerListHead => n % 0x100
  }

  function TailBytes(h: Head): seq<Byte> {
    if h == StructHead then [0] else []
  }

  /** The payload `WriteType` produces. */
  function ValueBytes(v: Value): seq<Byte>
    decreases v
  {
    match v
    case Integer(n) => Encode(n)
    case String(s) => StringBytes(s)
    case Binary(s) => BinaryBytes(s)
    case ObjectType(x, y) => Encode(x) + Encode(y)
    case ObjectId(x, y, z) => Encode(x) + Encode(y) + Encode(z)
    case Container(h, items) => HeadBytes(h, |items|) + (ItemsBytes(items, Written(h, |items|)) + TailBytes(h))
  }

  /** The first `n` elements, each after its key. */
  function ItemsBytes(items: seq<Item>, n: nat): seq<Byte>
    requires n <= |items|
    decreases items
  {
    if n == 0 then [] else ItemBytes(items[0]) + ItemsBytes(items[1..], n - 1)
  }

  function ItemBytes(item: Item): seq<Byte>
    decreases item
  {
    KeyBytes(item.key, Kind(item.value)) + ValueBytes(item.value)
  }

  // ---------- what the parser makes of bytes ----------

  datatype Parsed = Parsed(value: Value, rest: seq<Byte>)
  datatype Parts = Parts(items: seq<Item>, rest: seq<Byte>)
  datatype Field = Failed | Skipped(rest: seq<Byte>) | Found(name: seq<Byte>, value: Value, rest: seq<Byte>)

  function TakeBytes(b: seq<Byte>, n: nat): (r: Option<(seq<Byte>, seq<Byte>)>)
    ensures r.Some? ==> |r.value.1| <= |b|
  {
    if n <= |b| then Some((b[..n], b[n..])) else None
  }

  /** The length counts the final NUL, which is skipped unseen. */
  function ReadString(b: seq<Byte>): (r: Option<(seq<Byte>, seq<Byte>)>)
    ensures r.Some? ==> |r.value.1| < |b|
  {
    match Decode(b)
    case None => None
    case Some(d) =>
      if d.value == 0 || d.value > |d.rest| then None
      else Some((d.rest[..d.value - 1], d.rest[d.value..]))
  }

  function ReadBinary(b: seq<Byte>): (r: Option<(seq<Byte>, seq<Byte>)>)
    ensures r.Some? ==> |r.value.1| < |b|
  {
    match Decode(b)
    case None => None
    case Some(d) => TakeBytes(d.rest, d.value)
  }

  /** `n` integers in a row. */
  function ReadIntegers(n: nat, b: seq<Byte>): (r: Option<(seq<nat>, seq<Byte>)>)
    ensures r.Some? ==> |r.value.0| == n && |r.value.1| + n <= |b|
  {
    if n == 0 then Some(([], b))
    else
      match Decode(b)
      case None => None
      case Some(d) =>
        match ReadIntegers(n - 1, d.rest)
        case None => None
        case Some(more) => Some(([d.value] + more.0, more.1))
  }

  /** `AddObject`: an object's member with the same label is replaced, an array grows. */
  function Add(inArray: bool, had: seq<Item>, name: seq<Byte>, value: Value): seq<Item> {
    if inArray then had + [Item(NoKey, value)]
    else Put(had, Label(name), value)
  }

  function Put(had: seq<Item>, key: Key, value: Value): seq<Item> {
    if had == [] then [Item(key, value)]
    else if had[0].key == key then [Item(key, value)] + had[1..]
    else [had[0]] + Put(had[1..], key, value)
  }

  /** `ReadValue`: a header and, if anything follows and the type is known, its payload. */
  function ReadField(b: seq<Byte>): (f: Field)
    ensures f != Failed ==> |f.rest| < |b|
    decreases |b|, 0
  {
    if |b| < 4 then Failed
    else
      var kind, r := HeaderKind(b[..4]), b[4..];
      if r == [] || kind > OBJECT_ID then Skipped(r)
      else
        match ReadValue(kind, r)
        case None => Failed
        case Some(p) => Found(HeaderLabel(b[..4]), p.value, p.rest)
  }

  /** The payload of a field. `ReadBlob` makes a plain string, with nothing to tell it from one. */
  function ReadValue(kind: nat, b: seq<Byte>): (r: Option<Parsed>)
    ensures r.Some? ==> |r.value.rest| < |b|
    decreases |b|, 3
  {
    if kind == INTEGER then
      match Decode(b)
      case None => None
      case Some(d) => Some(Parsed(Integer(d.value), d.rest))
    else if kind == STRING then
      match ReadString(b)
      case None => None
      case Some((s, rest)) => Some(Parsed(String(s), rest))
    else if kind == BINARY then
      match ReadBinary(b)
      case None => None
      case Some((s, rest)) => Some(Parsed(String(s), rest))
    else if kind == STRUCT then Wrap(StructHead, ReadMembers(false, b, []))
    else if kind == LIST then ReadList(b)
    else if kind == MAP then
      if |b| < 3 then None else Wrap(MapHead(b[0], b[1]), ReadItems(b[2], Some(b[0]), b[1], b[3..]))
    else if kind == UNION then ReadUnion(b)
    else if kind == INTEGER_LIST then
      if |b| < 1 then None else Wrap(IntegerListHead, ReadItems(b[0], None, INTEGER, b[1..]))
    else if kind == OBJECT_TYPE then
      match ReadIntegers(2, b)
      case None => None
      case Some((ns, rest)) => Some(Parsed(ObjectType(ns[0], ns[1]), rest))
    else if kind == OBJECT_ID then
      match ReadIntegers(3, b)
      case None => None
      case Some((ns, rest)) => Some(Parsed(ObjectId(ns[0], ns[1], ns[2]), rest))
    else None
  }

  function Wrap(h: Head, parts: Option<Parts>): (r: Option<Parsed>)
    ensures r.Some? <==> parts.Some?
    ensures r.Some? ==> r.value.rest == parts.value.rest
  {
    if parts.None? then None else Some(Parsed(Container(h, parts.value.items), parts.value.rest))
  }

  function ReadUnion(b: seq<Byte>): (r: Option<Parsed>)
    ensures r.Some? ==> |r.value.rest| < |b|
    decreases |b|, 2
  {
    if b == [] then None
    else if b[0] == UNSET then Some(Parsed(Container(UnionHead(b[0]), []), b[1..]))
    else
      match ReadField(b[1..])
      case Failed => None
      case Skipped(rest) => Some(Parsed(Container(UnionHead(b[0]), []), rest))
      case Found(name, value, rest) => Some(Parsed(Container(UnionHead(b[0]), [Item(Label(name), value)]), rest))
  }

  function ReadList(b: seq<Byte>): (r: Option<Parsed>)
    ensures r.Some? ==> |r.value.rest| < |b|
    decreases |b|, 2
  {
    if |b| < 2 then None
    else if |b| > 2 && b[2] == STUB && b[0] == STRUCT then
      Wrap(ListHead(b[0], true), ReadMembers(true, b[3..], []))
    else Wrap(ListHead(b[0], false), ReadItems(b[1], None, b[0], b[2..]))
  }

  /** Fields up to a zero byte: the members of a struct, or the elements of a stub list. */
  function ReadMembers(inArray: bool, b: seq<Byte>, had: seq<Item>): (r: Option<Parts>)
    ensures r.Some? ==> |r.value.rest| < |b|
    decreases |b|, 1
  {
    if b == [] then None
    else if b[0] == 0 then Some(Parts(had, b[1..]))
    else
      match ReadField(b)
      case Failed => None
      case Skipped(rest) => ReadMembers(inArray, rest, had)
      case Found(name, value, rest) => ReadMembers(inArray, rest, Add(inArray, had, name, value))
  }

  /** The kinds lists and maps can hold. */
  predicate Element(kind: nat) { kind == INTEGER || kind == STRING || kind == STRUCT }

  /** The key of a map entry, nothing for a list. */
  function ReadKey(keyKind: Option<nat>, b: seq<Byte>): (r: Option<(Key, seq<Byte>)>)
    ensures r.Some? ==> |r.value.1| <= |b|
  {
    match keyKind
    case None => Some((NoKey, b))
    case Some(k) =>
      if k == INTEGER then
        match Decode(b)
        case None => None
        case Some(d) => Some((IntKey(d.value), d.rest))
      else if k == STRING then
        match ReadString(b)
        case None => None
        case Some((s, rest)) => Some((StrKey(s), rest))
      else None
  }

  /** `n` elements of one kind; a list of a kind it does not know is read as empty. */
  function ReadItems(n: nat, keyKind: Option<nat>, kind: nat, b: seq<Byte>): (r: Option<Parts>)
    ensures r.Some? ==> |r.value.rest| <= |b| && (Element(kind) ==> |r.value.items| == n)
    decreases |b|, 4, n
  {
    if n == 0 then Some(Parts([], b))
    else if !Element(kind) then if keyKind.None? then ReadItems(n - 1, keyKind, kind, b) else None
    else
      match ReadKey(keyKind, b)
      case None => None
      case Some((key, r)) =>
        match ReadValue(kind, r)
        case None => None
        case Some(p) =>
          match ReadItems(n - 1, keyKind, kind, p.rest)
          case None => None
          case Some(more) => Some(Parts([Item(key, p.value)] + more.items, more.rest))
  }

  /** `Parser::Read`: fields to the end of the buffer. */
  function ReadDocument(b: seq<Byte>, had: seq<Item>): Option<seq<Item>>
    decreases |b|
  {
    if b == [] then Some(had)
    else
      match ReadField(b)
      case Failed => None
      case Skipped(rest) => ReadDocument(rest, had)
      case Found(name, value, rest) => ReadDocument(rest, Add(false, had, name, value))
  }

  // ---------- the trees that can be read ----------

  predicate AnyLabel(key: Key) { key.Label? && ValidLabel(key.name) }

  /** A struct ends at a zero byte, which is also what the header of an empty label begins with. */
  predicate GoodLabel(key: Key) { AnyLabel(key) && key.name != [] }

  predicate GoodText(s: seq<Byte>) { |CString(s)| + 1 < LIMIT }

  predicate GoodKey(keyKind: nat, key: Key) {
    if keyKind == INTEGER then key.IntKey? && key.n < LIMIT else keyKind == STRING && key.StrKey? && GoodText(key.s)
  }

  predicate DistinctKeys(items: seq<Item>) {
    forall i, j :: 0 <= i < j < |items| ==> items[i].key != items[j].key
  }

  /** Fields with valid labels, no label twice. */
  predicate Labelled(items: seq<Item>) {
    DistinctKeys(items) && forall i :: 0 <= i < |items| ==> AnyLabel(items[i].key)
  }

  /** ... none of them empty. */
  predicate GoodMembers(items: seq<Item>) {
    Labelled(items) && forall i :: 0 <= i < |items| ==> GoodLabel(items[i].key)
  }

  /** What a list (no keys) or map of one kind holds. */
  predicate Elements(keyKind: Option<nat>, kind: nat, items: seq<Item>) {
    forall i :: 0 <= i < |items| ==>
      && Kind(items[i].value) == kind && Element(kind)
      && if keyKind.None? then items[i].key == NoKey else GoodKey(keyKind.value, items[i].key)
  }

  /** What a container may hold, apart from the elements being well-formed themselves. */
  predicate GoodItems(h: Head, items: seq<Item>) {
    match h
    case StructHead => GoodMembers(items)
    case UnionHead(address) => address < 0x100 && Labelled(items) && |items| == if address == UNSET then 0 else 1
    case ListHead(kind, stub) =>
      !stub && kind < 0x100 && |items| < 0x100 && Elements(None, kind, items)
    case MapHead(keyKind, valueKind) =>
      keyKind < 0x100 && valueKind < 0x100 && |items| < 0x100 && Elements(Some(keyKind), valueKind, items)
    case IntegerListHead => |items| < 0x100 && Elements(None, INTEGER, items)
  }

  predicate Good(v: Value)
    decreases v
  {
    match v
    case Integer(n) => n < LIMIT
    case String(s) => GoodText(s)
    case Binary(s) => |CString(s)| < LIMIT
    case ObjectType(x, y) => x < LIMIT && y < LIMIT
    case ObjectId(x, y, z) => x < LIMIT && y < LIMIT && z < LIMIT
    case Container(h, items) => GoodItems(h, items) && forall i :: 0 <= i < |items| ==> Good(items[i].value)
  }

  predicate GoodDocument(items: seq<Item>) {
    Labelled(items) && forall i :: 0 <= i < |items| ==> Good(items[i].value)
  }

  // ---------- what is read of them ----------

  /** The tree the parser finds: every text ends at its first NUL, and blobs are strings. */
  function AsRead(v: Value): Value
    decreases v
  {
    match v
    case String(s) => String(CString(s))
    case Binary(s) => String(CString(s))
    case Container(h, items) => Container(h, ItemsAsRead(items))
    case _ => v
  }

  function ItemsAsRead(items: seq<Item>): (r: seq<Item>)
    ensures |r| == |items| && forall i :: 0 <= i < |r| ==> r[i] == ItemAsRead(items[i])
    decreases items
  {
    if items == [] then [] else [ItemAsRead(items[0])] + ItemsAsRead(items[1..])
  }

  lemma ReadFirst(items: seq<Item>)
    ensures items == [] ==> ItemsAsRead(items) == []
    ensures items != [] ==> ItemsAsRead(items) == [ItemAsRead(items[0])] + ItemsAsRead(items[1..])
  {}

  function ItemAsRead(item: Item): Item
    decreases item
  {
    Item(KeyAsRead(item.key), AsRead(item.value))
  }

  function KeyAsRead(key: Key): Key {
    if key.StrKey? then StrKey(CString(key.s)) else key
  }

  /** No NUL in a text, and no blob. */
  predicate Plain(v: Value)
    decreases v
  {
    match v
    case String(s) => 0 !in s
    case Binary(s) => false
    case Container(_, items) => forall i :: 0 <= i < |items| ==> PlainKey(items[i].key) && Plain(items[i].value)
    case _ => true
  }

  predicate PlainKey(key: Key) { key.StrKey? ==> 0 !in key.s }

  predicate PlainItem(item: Item) { PlainKey(item.key) && Plain(item.value) }

  lemma CStringIs(s: seq<Byte>)
    ensures 0 !in CString(s) && |CString(s)| <= |s|
    ensures 0 in s ==> |CString(s)| < |s|
    ensures CString(CString(s)) == CString(s)
  {}

  /** Exactly these trees are read as they are. */
  lemma {:induction false} SameIff(v: Value)
    ensures AsRead(v) == v <==> Plain(v)
    decreases v
  {
    hide CString;
    match v
    case String(s) => CStringIs(s);
    case Container(h, items) =>
      forall i | 0 <= i < |items|
        ensures ItemAsRead(items[i]) == items[i] <==> PlainKey(items[i].key) && Plain(items[i].value)
      {
        ItemSameIff(items[i]);
      }
      assert ItemsAsRead(items) == items <==> forall i :: 0 <= i < |items| ==> ItemAsRead(items[i]) == items[i];
    case _ =>
  }

  lemma {:induction false} ItemSameIff(item: Item)
    ensures ItemAsRead(item) == item <==> PlainItem(item)
    decreases item
  {
    hide CString;
    if item.key.StrKey? { CStringIs(item.key.s); }
    SameIff(item.value);
  }

  /** What can follow a field: nothing, the end of a struct, or another header. */
  predicate Follows(rest: seq<Byte>) { rest == [] || rest[0] == 0 || rest[0] >= 0x80 }

  // ---------- round trips ----------

  lemma StringRoundTrip(s: seq<Byte>, rest: seq<Byte>)
    requires GoodText(s)
    ensures ReadString(StringBytes(s) + rest) == Some((CString(s), rest))
  {
    hide Encode, Decode, CString;
    var c := CString(s);
    var tail := c + [0] + rest;
    assert StringBytes(s) + rest == Encode(|c| + 1) + tail;
    TdfInteger.RoundTripIff(|c| + 1, tail);
    assert tail[..|c|] == c && tail[|c| + 1..] == rest;
  }

  lemma BinaryRoundTrip(s: seq<Byte>, rest: seq<Byte>)
    requires |CString(s)| < LIMIT
    ensures ReadBinary(BinaryBytes(s) + rest) == Some((CString(s), rest))
  {
    hide Encode, Decode, CString;
    var c := CString(s);
    assert BinaryBytes(s) + rest == Encode(|c|) + (c + rest);
    TdfInteger.RoundTripIff(|c|, c + rest);
    assert (c + rest)[..|c|] == c && (c + rest)[|c|..] == rest;
  }

  lemma KeyRoundTrip(keyKind: Option<nat>, key: Key, kind: Byte, rest: seq<Byte>)
    requires if keyKind.None? then key == NoKey else GoodKey(keyKind.value, key)
    ensures ReadKey(keyKind, KeyBytes(key, kind) + rest) == Some((KeyAsRead(key), rest))
  {
    hide Encode, Decode, ReadString, StringBytes, CString;
    match key
    case NoKey => assert [] + rest == rest;
    case IntKey(n) => TdfInteger.RoundTripIff(n, rest);
    case StrKey(s) => StringRoundTrip(s, rest);
    case Label(_) =>
  }

  lemma OneMoreInteger(x: nat, n: nat, b: seq<Byte>)
    requires x < LIMIT && ReadIntegers(n, b).Some?
    ensures ReadIntegers(n + 1, Encode(x) + b) == Some(([x] + ReadIntegers(n, b).value.0, ReadIntegers(n, b).value.1))
  {
    hide Encode, Decode;
    TdfInteger.RoundTripIff(x, b);
  }

  lemma TwoIntegers(x: nat, y: nat, rest: seq<Byte>)
    requires x < LIMIT && y < LIMIT
    ensures ReadIntegers(2, Encode(x) + Encode(y) + rest) == Some(([x, y], rest))
  {
    hide Encode, Decode;
    assert Encode(x) + Encode(y) + rest == Encode(x) + (Encode(y) + rest);
    assert ReadIntegers(0, rest) == Some(([], rest));
    OneMoreInteger(y, 0, rest);
    OneMoreInteger(x, 1, Encode(y) + rest);
    assert [y] + [] == [y] && [x] + [y] == [x, y];
  }

  lemma ThreeIntegers(x: nat, y: nat, z: nat, rest: seq<Byte>)
    requires x < LIMIT && y < LIMIT && z < LIMIT
    ensures ReadIntegers(3, Encode(x) + Encode(y) + Encode(z) + rest) == Some(([x, y, z], rest))
  {
    hide Encode, Decode, ReadIntegers;
    var tail := Encode(y) + Encode(z) + rest;
    assert Encode(x) + Encode(y) + Encode(z) + rest == Encode(x) + tail;
    TwoIntegers(y, z, rest);
    OneMoreInteger(x, 2, tail);
    assert [x] + [y, z] == [x, y, z];
  }

  /** The bytes of members begin with a header, or with what follows them. */
  lemma {:induction false} LabelsFollow(items: seq<Item>, rest: seq<Byte>)
    requires (forall i :: 0 <= i < |items| ==> AnyLabel(items[i].key)) && Follows(rest)
    ensures Follows(ItemsBytes(items, |items|) + rest)
    ensures items != [] ==> |ItemsBytes(items, |items|)| >= 4
    ensures items != [] && AnyLabel(items[0].key) && items[0].key.name != [] ==> ItemsBytes(items, |items|)[0] >= 0x80
    ensures items != [] && AnyLabel(items[0].key) && items[0].key.name == [] ==> ItemsBytes(items, |items|)[0] == 0
  {
    hide HeaderBytes, ItemsBytes;
    if items != [] {
      var name := items[0].key.name;
      assert AnyLabel(items[0].key) && 0 !in name;
      HeaderRoundTrip(name, Kind(items[0].value));
      HeaderFirst(items);
    } else {
      NoItems(items);
      assert [] + rest == rest;
    }
  }

  /** The first byte of fields is that of the first header. */
  lemma HeaderFirst(items: seq<Item>)
    requires items != [] && items[0].key.Label?
    ensures |ItemsBytes(items, |items|)| >= 4
    ensures ItemsBytes(items, |items|)[0] == HeaderBytes(CString(items[0].key.name), Kind(items[0].value))[0]
  {
    hide HeaderBytes, CString, ValueBytes, Kind;
    var item := items[0];
    var header, more := HeaderBytes(CString(item.key.name), Kind(item.value)), ItemsBytes(items[1..], |items| - 1);
    assert ItemBytes(item) == header + ValueBytes(item.value);
    assert ItemsBytes(items, |items|) == ItemBytes(item) + more;
  }

  lemma PutNew(had: seq<Item>, key: Key, value: Value)
    requires forall i :: 0 <= i < |had| ==> had[i].key != key
    ensures Put(had, key, value) == had + [Item(key, value)]
  {}

  /** Parsing the bytes of a well-formed value gives `AsRead` of it and consumes exactly those bytes. */
  lemma {:induction false} ValueRoundTrip(v: Value, rest: seq<Byte>)
    requires Good(v) && (Element(Kind(v)) || Follows(rest))
    ensures ReadValue(Kind(v), ValueBytes(v) + rest) == Some(Parsed(AsRead(v), rest))
    decreases v
  {
    hide Encode, Decode, ReadString, ReadBinary, StringBytes, BinaryBytes, ReadIntegers, ReadList, ReadUnion,
      ReadMembers, ReadItems, CString, ItemsAsRead;
    match v
    case Integer(n) => TdfInteger.RoundTripIff(n, rest);
    case String(s) => StringRoundTrip(s, rest);
    case Binary(s) => BinaryRoundTrip(s, rest);
    case ObjectType(x, y) => TwoIntegers(x, y, rest);
    case ObjectId(x, y, z) => ThreeIntegers(x, y, z, rest);
    case Container(h, items) => ContainerRoundTrip(h, items, rest);
  }

  lemma {:induction false} ContainerRoundTrip(h: Head, items: seq<Item>, rest: seq<Byte>)
    requires GoodItems(h, items) && forall i :: 0 <= i < |items| ==> Good(items[i].value)
    requires h == StructHead || Follows(rest)
    ensures ReadValue(HeadKind(h), ValueBytes(Container(h, items)) + rest)
         == Some(Parsed(Container(h, ItemsAsRead(items)), rest))
    decreases items, 2
  {
    hide Good, Elements, GoodMembers, ReadMembers, ReadItems, ReadField, ItemsBytes, ReadUnion, ReadList, ItemsAsRead;
    var body := ItemsBytes(items, |items|);
    match h
    case StructHead =>
      StructIs(items);
      assert [] + (body + [0]) + rest == body + ([0] + rest);
      assert [] + ItemsAsRead(items) == ItemsAsRead(items);
      MembersRoundTrip(items, [], rest);
    case UnionHead(address) => UnionRoundTrip(address, items, rest);
    case ListHead(kind, stub) => ListRoundTrip(kind, stub, items, rest);
    case MapHead(keyKind, valueKind) =>
      assert ([keyKind, valueKind, |items|] + (body + []) + rest)[3..] == body + rest;
      ItemsRoundTrip(Some(keyKind), valueKind, items, rest);
    case IntegerListHead =>
      assert ([|items|] + (body + []) + rest)[1..] == body + rest;
      ItemsRoundTrip(None, INTEGER, items, rest);
  }

  lemma StructIs(items: seq<Item>)
    requires GoodItems(StructHead, items)
    ensures GoodMembers([] + items) && [] + items == items
  {
    assert [] + items == items;
  }

  lemma {:induction false} UnionRoundTrip(address: nat, items: seq<Item>, rest: seq<Byte>)
    requires GoodItems(UnionHead(address), items) && forall i :: 0 <= i < |items| ==> Good(items[i].value)
    requires Follows(rest)
    ensures ReadUnion(ValueBytes(Container(UnionHead(address), items)) + rest)
         == Some(Parsed(Container(UnionHead(address), ItemsAsRead(items)), rest))
    decreases items, 1
  {
    hide Good, ReadField, ItemsBytes, ItemBytes, AsRead, ItemsAsRead, ValueBytes;
    UnionIs(address, items, rest);
    ReadFirst(items);
    if address != UNSET {
      ReadFirst(items[1..]);
      FieldRoundTrip(items[0], rest);
      assert AnyLabel(items[0].key);
      assert ItemsAsRead(items) == [Item(Label(items[0].key.name), AsRead(items[0].value))];
    }
  }

  lemma UnionIs(address: nat, items: seq<Item>, rest: seq<Byte>)
    requires GoodItems(UnionHead(address), items)
    ensures var b := ValueBytes(Container(UnionHead(address), items)) + rest;
            b != [] && b[0] == address && b[1..] == if address == UNSET then rest else ItemBytes(items[0]) + rest
  {
    hide ItemsBytes, ItemBytes;
    NoItems(items);
    if address != UNSET {
      OneItem(items);
      assert ([address] + (ItemBytes(items[0]) + []) + rest)[1..] == ItemBytes(items[0]) + rest;
    } else {
      assert ([address] + ([] + []) + rest)[1..] == rest;
    }
  }

  lemma OneItem(items: seq<Item>)
    requires |items| == 1
    ensures ItemsBytes(items, 1) == ItemBytes(items[0])
  {}

  lemma NoItems(items: seq<Item>)
    ensures ItemsBytes(items, 0) == []
  {}

  lemma ListBytes(kind: nat, items: seq<Item>, rest: seq<Byte>)
    requires kind < 0x100 && |items| < 0x100
    ensures var b := ValueBytes(Container(ListHead(kind, false), items)) + rest;
            |b| >= 2 && b[0] == kind && b[1] == |items| && b[2..] == ItemsBytes(items, |items|) + rest
  {
    hide ItemsBytes;
    var body := ItemsBytes(items, |items|);
    assert [kind, |items|] + [] + (body + []) + rest == [kind, |items|] + (body + rest);
  }

  lemma {:induction false} ListRoundTrip(kind: nat, stub: bool, items: seq<Item>, rest: seq<Byte>)
    requires GoodItems(ListHead(kind, stub), items) && forall i :: 0 <= i < |items| ==> Good(items[i].value)
    requires Follows(rest)
    ensures ReadList(ValueBytes(Container(ListHead(kind, stub), items)) + rest)
         == Some(Parsed(Container(ListHead(kind, stub), ItemsAsRead(items)), rest))
    decreases items, 1
  {
    hide Good, Elements, ReadItems, ReadMembers, ItemsBytes, ValueBytes, ItemsAsRead;
    ListBytes(kind, items, rest);
    if kind == STRUCT { StructsFollow(items, rest); }
    ItemsRoundTrip(None, kind, items, rest);
  }

  /** A list of structs never begins with the stub marker. */
  lemma StructsFollow(items: seq<Item>, rest: seq<Byte>)
    requires GoodItems(ListHead(STRUCT, false), items) && Follows(rest)
    requires forall i :: 0 <= i < |items| ==> Good(items[i].value)
    ensures Follows(ItemsBytes(items, |items|) + rest)
  {
    hide Good, ItemsBytes;
    if items == [] {
      NoItems(items);
      assert [] + rest == rest;
    } else {
      StructFollows(items[0]);
      FirstItem(items, |items|);
    }
  }

  lemma FirstItem(items: seq<Item>, n: nat)
    requires 0 < n <= |items|
    ensures ItemsBytes(items, n) == ItemBytes(items[0]) + ItemsBytes(items[1..], n - 1)
  {}

  lemma StructFollows(item: Item)
    requires item.key == NoKey && Kind(item.value) == STRUCT && Good(item.value)
    ensures ItemBytes(item) != [] && Follows(ItemBytes(item))
  {
    hide ItemsBytes;
    var members := item.value.items;
    assert item.value == Container(StructHead, members);
    assert ItemBytes(item) == ItemsBytes(members, |members|) + [0];
    LabelsFollow(members, [0]);
  }

  lemma {:induction false} FieldRoundTrip(item: Item, rest: seq<Byte>)
    requires AnyLabel(item.key) && Good(item.value) && Follows(rest)
    ensures ReadField(ItemBytes(item) + rest) == Found(item.key.name, AsRead(item.value), rest)
    decreases item, 0
  {
    hide ReadValue, ValueBytes, Good, HeaderBytes, HeaderLabel, HeaderKind, AsRead;
    var name, kind := item.key.name, Kind(item.value);
    assert 0 !in name;
    var header, body := HeaderBytes(name, kind), ValueBytes(item.value);
    HeaderRoundTrip(name, kind);
    var b := ItemBytes(item) + rest;
    assert b[..4] == header && b[4..] == body + rest;
    ValueRoundTrip(item.value, rest);
  }

  /** One member of a struct, or of a stub list, is read. */
  lemma {:induction false} MemberStep(inArray: bool, item: Item, more: seq<Byte>, had: seq<Item>)
    requires GoodLabel(item.key) && Good(item.value) && Follows(more)
    ensures ReadMembers(inArray, ItemBytes(item) + more, had)
         == ReadMembers(inArray, more, Add(inArray, had, item.key.name, AsRead(item.value)))
    decreases item, 1
  {
    hide ReadField, ItemBytes, Good, Add, AsRead;
    FieldRoundTrip(item, more);
    FieldFirst(item);
  }

  /** The bytes of a member begin with its header. */
  lemma FieldFirst(item: Item)
    requires GoodLabel(item.key)
    ensures |ItemBytes(item)| >= 4 && ItemBytes(item)[0] >= 0x80
  {
    hide HeaderBytes, ValueBytes, CString;
    var name := item.key.name;
    assert 0 !in name;
    HeaderRoundTrip(name, Kind(item.value));
  }

  /** Members are read back in order. */
  lemma {:induction false} MembersUpTo(items: seq<Item>, had: seq<Item>, tail: seq<Byte>)
    requires GoodMembers(had + items) && Follows(tail) && forall i :: 0 <= i < |items| ==> Good(items[i].value)
    ensures ReadMembers(false, ItemsBytes(items, |items|) + tail, had)
         == ReadMembers(false, tail, had + ItemsAsRead(items))
    decreases items, 0
  {
    hide ReadMembers, ItemBytes, ItemsBytes, Good, GoodMembers, Labelled, Add, AsRead, ItemsAsRead;
    ReadFirst(items);
    if items == [] {
      NoItems(items);
      assert [] + tail == tail && had + [] == had;
    } else {
      var body, more := ItemsBytes(items[1..], |items| - 1), ItemsAsRead(items[1..]);
      var next := had + [ItemAsRead(items[0])];
      FirstItem(items, |items|);
      Joined(ItemBytes(items[0]), body, tail);
      Joined(had, [ItemAsRead(items[0])], more);
      GoodFirst(had, items, AsRead(items[0].value));
      LabelsFollow(items[1..], tail);
      MemberStep(false, items[0], body + tail, had);
      MembersUpTo(items[1..], next, tail);
    }
  }

  lemma Joined<T>(a: seq<T>, b: seq<T>, c: seq<T>)
    ensures a + b + c == a + (b + c)
  {}

  /** Those of a struct end at the zero byte. */
  lemma {:induction false} MembersRoundTrip(items: seq<Item>, had: seq<Item>, rest: seq<Byte>)
    requires GoodMembers(had + items) && forall i :: 0 <= i < |items| ==> Good(items[i].value)
    ensures ReadMembers(false, ItemsBytes(items, |items|) + ([0] + rest), had)
         == Some(Parts(had + ItemsAsRead(items), rest))
    decreases items, 1
  {
    hide ReadField, ItemsBytes, Good, ItemsAsRead;
    MembersUpTo(items, had, [0] + rest);
    assert ([0] + rest)[1..] == rest;
  }

  lemma FirstMember(had: seq<Item>, items: seq<Item>, value: Value)
    requires Labelled(had + items) && items != []
    ensures AnyLabel(items[0].key) && KeyAsRead(items[0].key) == items[0].key && Labelled(items) && Labelled(items[1..])
    ensures Add(false, had, items[0].key.name, value) == had + [Item(items[0].key, value)]
    ensures Labelled(had + [Item(items[0].key, value)] + items[1..])
  {
    var all, next := had + items, had + [Item(items[0].key, value)] + items[1..];
    assert all[|had|] == items[0];
    assert forall i :: 0 <= i < |items| ==> items[i] == all[|had| + i];
    assert forall i :: 0 <= i < |had| ==> had[i] == all[i];
    assert forall i :: 0 <= i < |all| ==> next[i].key == all[i].key;
    PutNew(had, items[0].key, value);
  }

  lemma GoodFirst(had: seq<Item>, items: seq<Item>, value: Value)
    requires GoodMembers(had + items) && items != []
    ensures GoodLabel(items[0].key) && KeyAsRead(items[0].key) == items[0].key
    ensures Labelled(items) && Labelled(items[1..])
    ensures Add(false, had, items[0].key.name, value) == had + [Item(items[0].key, value)]
    ensures GoodMembers(had + [Item(items[0].key, value)] + items[1..])
  {
    var all, next := had + items, had + [Item(items[0].key, value)] + items[1..];
    FirstMember(had, items, value);
    assert all[|had|] == items[0];
    assert forall i :: 0 <= i < |all| ==> next[i].key == all[i].key;
  }

  /** The elements of a list or map are read back in order. */
  lemma {:induction false} ItemsRoundTrip(keyKind: Option<nat>, kind: nat, items: seq<Item>, rest: seq<Byte>)
    requires Elements(keyKind, kind, items) && forall i :: 0 <= i < |items| ==> Good(items[i].value)
    ensures ReadItems(|items|, keyKind, kind, ItemsBytes(items, |items|) + rest)
         == Some(Parts(ItemsAsRead(items), rest))
    decreases items, 0
  {
    hide ReadValue, ReadKey, ValueBytes, KeyBytes, Good, AsRead;
    if items == [] {
      assert [] + rest == rest;
    } else {
      var item, more := items[0], ItemsBytes(items[1..], |items| - 1) + rest;
      var body := ValueBytes(item.value) + more;
      assert ItemsBytes(items, |items|) + rest == KeyBytes(item.key, Kind(item.value)) + body;
      KeyRoundTrip(keyKind, item.key, Kind(item.value), body);
      ElementRoundTrip(items[0], more);
      ItemsRoundTrip(keyKind, kind, items[1..], rest);
    }
  }

  lemma {:induction false} ElementRoundTrip(item: Item, rest: seq<Byte>)
    requires Good(item.value) && Element(Kind(item.value))
    ensures ReadValue(Kind(item.value), ValueBytes(item.value) + rest) == Some(Parsed(AsRead(item.value), rest))
    decreases item
  {
    ValueRoundTrip(item.value, rest);
  }

  lemma {:induction false} DocumentRoundTripFrom(items: seq<Item>, had: seq<Item>)
    requires Labelled(had + items) && forall i :: 0 <= i < |items| ==> Good(items[i].value)
    ensures ReadDocument(ItemsBytes(items, |items|), had) == Some(had + ItemsAsRead(items))
    decreases items
  {
    hide ReadField, ItemBytes, ItemsBytes, Good, Labelled, AsRead, ItemsAsRead;
    ReadFirst(items);
    if items == [] {
      NoItems(items);
      assert had + [] == had;
    } else {
      var body, more := ItemsBytes(items[1..], |items| - 1), ItemsAsRead(items[1..]);
      var next := had + [ItemAsRead(items[0])];
      FirstItem(items, |items|);
      Joined(had, [ItemAsRead(items[0])], more);
      FirstMember(had, items, AsRead(items[0].value));
      LabelsFollow(items[1..], []);
      assert body + [] == body;
      FieldRoundTrip(items[0], body);
      DocumentRoundTripFrom(items[1..], next);
      LabelsFollow(items, []);
      assert ItemsBytes(items, |items|) + [] == ItemsBytes(items, |items|);
    }
  }

  /** Parsing the bytes of a well-formed document gives the same document, its texts cut and its blobs strings. */
  lemma {:induction false} DocumentRoundTrip(items: seq<Item>)
    requires GoodDocument(items)
    ensures ReadDocument(ItemsBytes(items, |items|), []) == Some(ItemsAsRead(items))
  {
    hide ItemsBytes, ItemsAsRead, ReadDocument;
    assert [] + items == items && [] + ItemsAsRead(items) == ItemsAsRead(items);
    DocumentRoundTripFrom(items, []);
  }
}
