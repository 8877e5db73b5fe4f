/** The sparse attribute list of an object and the delta sent to replicas. */
module Attributes {
  import opened Wrappers

  /** The attributes clients know are those below this index; the two fields from it on carry the weapon damage. */
  const CLIENT_COUNT := 111
  const MIN_DAMAGE := 111
  const MAX_DAMAGE := 112
  const END_OF_FIELDS := 0xFF

  datatype Entry = Entry(index: nat, value: real)

  /** What the reflection stream holds: field ids and the values after them. */
  datatype Token = Id(id: nat) | Float(value: real)

  function ValueIn(m: map<nat, real>, i: nat): real {
    if i in m then m[i] else 0.0
  }

  predicate Sorted(s: seq<Entry>) {
    forall i, j :: 0 <= i < j < |s| ==> s[i].index < s[j].index
  }

  function ToMap(s: seq<Entry>): map<nat, real> {
    if s == [] then map[] else ToMap(s[..|s| - 1])[s[|s| - 1].index := s[|s| - 1].value]
  }

  lemma {:induction false} InMap(s: seq<Entry>, i: nat)
    ensures i in ToMap(s) <==> exists k :: 0 <= k < |s| && s[k].index == i
  {
    if s != [] {
      var front := s[..|s| - 1];
      InMap(front, i);
      if i in ToMap(front) {
        var k :| 0 <= k < |front| && front[k].index == i;
        assert s[k].index == i;
      }
      if k :| 0 <= k < |s| - 1 && s[k].index == i {
        assert front[k].index == i;
      }
    }
  }

  lemma {:induction false} ToMapAt(s: seq<Entry>, k: nat)
    requires Sorted(s) && k < |s|
    ensures s[k].index in ToMap(s) && ToMap(s)[s[k].index] == s[k].value
  {
    if k < |s| - 1 {
      assert s[..|s| - 1][k] == s[k];
      ToMapAt(s[..|s| - 1], k);
    }
  }

  /** Entries of attributes clients know, none of them zero. */
  predicate Clean(s: seq<Entry>) {
    forall k :: 0 <= k < |s| ==> s[k].value != 0.0 && s[k].index < CLIENT_COUNT
  }

  lemma AppendMap(s: seq<Entry>, e: Entry)
    ensures ToMap(s + [e]) == ToMap(s)[e.index := e.value]
  {
    assert (s + [e])[..|s|] == s;
  }

  /** A list split at its last entry. */
  lemma Split(s: seq<Entry>)
    requires Sorted(s) && s != []
    ensures var front, last := s[..|s| - 1], s[|s| - 1];
            Sorted(front) && front + [last] == s && last.index !in ToMap(front)
            && forall j :: 0 <= j < |front| ==> front[j] == s[j] && s[j].index != last.index
  {
    InMap(s[..|s| - 1], s[|s| - 1].index);
  }

  lemma {:induction false} RemoveFromMap(s: seq<Entry>, k: nat)
    requires Sorted(s) && k < |s|
    ensures ToMap(s[..k] + s[k + 1..]) == ToMap(s) - {s[k].index}
  {
    hide ToMap, Sorted;
    var front, last := s[..|s| - 1], s[|s| - 1];
    Split(s);
    AppendMap(front, last);
    if k == |s| - 1 {
      assert s[..k] + s[k + 1..] == front;
    } else {
      RemoveFromMap(front, k);
      assert s[..k] + s[k + 1..] == (front[..k] + front[k + 1..]) + [last];
      AppendMap(front[..k] + front[k + 1..], last);
    }
  }

  lemma RemoveEntry(s: seq<Entry>, k: nat)
    requires Sorted(s) && k < |s|
    ensures var t := s[..k] + s[k + 1..];
            Sorted(t) && ToMap(t) == ToMap(s) - {s[k].index} && (Clean(s) ==> Clean(t))
  {
    hide ToMap;
    RemoveFromMap(s, k);
  }

  lemma {:induction false} ReplaceInMap(s: seq<Entry>, k: nat, value: real)
    requires Sorted(s) && k < |s|
    ensures ToMap(s[k := Entry(s[k].index, value)]) == ToMap(s)[s[k].index := value]
  {
    hide ToMap, Sorted;
    var front, last, e := s[..|s| - 1], s[|s| - 1], Entry(s[k].index, value);
    Split(s);
    AppendMap(front, last);
    if k == |s| - 1 {
      AppendMap(front, e);
      assert s[k := e] == front + [e];
    } else {
      ReplaceInMap(front, k, value);
      AppendMap(front[k := e], last);
      assert s[k := e] == front[k := e] + [last];
    }
  }

  lemma ReplaceEntry(s: seq<Entry>, k: nat, value: real)
    requires Sorted(s) && k < |s|
    ensures var t := s[k := Entry(s[k].index, value)];
            Sorted(t) && ToMap(t) == ToMap(s)[s[k].index := value] && (Clean(s) && value != 0.0 ==> Clean(t))
  {
    hide ToMap;
    ReplaceInMap(s, k, value);
  }

  lemma {:induction false} InsertInMap(s: seq<Entry>, k: nat, e: Entry)
    requires k <= |s| && forall j :: k <= j < |s| ==> s[j].index > e.index
    ensures ToMap(s[..k] + [e] + s[k..]) == ToMap(s)[e.index := e.value]
  {
    hide ToMap;
    if k == |s| {
      assert s[..k] + [e] + s[k..] == s + [e];
      AppendMap(s, e);
    } else {
      var front, last := s[..|s| - 1], s[|s| - 1];
      AppendMap(front, last);
      assert front + [last] == s;
      InsertInMap(front, k, e);
      AppendMap(front[..k] + [e] + front[k..], last);
      assert s[..k] + [e] + s[k..] == (front[..k] + [e] + front[k..]) + [last];
    }
  }

  lemma InsertEntry(s: seq<Entry>, k: nat, e: Entry)
    requires Sorted(s) && k <= |s|
    requires forall j :: 0 <= j < k ==> s[j].index < e.index
    requires forall j :: k <= j < |s| ==> s[j].index > e.index
    ensures var t := s[..k] + [e] + s[k..];
            Sorted(t) && ToMap(t) == ToMap(s)[e.index := e.value]
            && (Clean(s) && e.value != 0.0 && e.index < CLIENT_COUNT ==> Clean(t))
  {
    hide ToMap;
    InsertInMap(s, k, e);
  }

  /** A replica that takes the written fields in order. */
  function Apply(m: map<nat, real>, fields: seq<Entry>): map<nat, real> {
    if fields == [] then m
    else
      var last := fields[|fields| - 1];
      Apply(m, fields[..|fields| - 1])[last.index := last.value]
  }

  predicate DistinctIds(fields: seq<Entry>) {
    forall i, j :: 0 <= i < j < |fields| ==> fields[i].index != fields[j].index
  }

  /** With distinct fields each is taken as written, and what is not written stays. */
  lemma {:induction false} ApplyAt(m: map<nat, real>, fields: seq<Entry>, i: nat)
    requires DistinctIds(fields)
    ensures forall k :: 0 <= k < |fields| && fields[k].index == i ==> ValueIn(Apply(m, fields), i) == fields[k].value
    ensures (forall k :: 0 <= k < |fields| ==> fields[k].index != i) ==> ValueIn(Apply(m, fields), i) == ValueIn(m, i)
  {
    if fields != [] {
      var front, last := fields[..|fields| - 1], fields[|fields| - 1];
      ApplyAt(m, front, i);
      assert forall k :: 0 <= k < |front| ==> front[k] == fields[k];
      if last.index == i {
        assert ValueIn(Apply(m, fields), i) == last.value;
      } else {
        assert ValueIn(Apply(m, fields), i) == ValueIn(Apply(m, front), i);
      }
    }
  }

  /** The stream for a list of fields: id, value, id, value, ..., end marker. */
  function Stream(fields: seq<Entry>): seq<Token> {
    if fields == [] then [Id(END_OF_FIELDS)] else [Id(fields[0].index), Float(fields[0].value)] + Stream(fields[1..])
  }

  /** A reader of that stream: fields up to the end marker, and what follows it. */
  function ReadStream(s: seq<Token>): Option<(seq<Entry>, seq<Token>)> {
    if s == [] || !s[0].Id? then None
    else if s[0].id == END_OF_FIELDS then Some(([], s[1..]))
    else if |s| < 2 || !s[1].Float? then None
    else
      match ReadStream(s[2..])
      case None => None
      case Some(more) => Some(([Entry(s[0].id, s[1].value)] + more.0, more.1))
  }

  lemma {:induction false} StreamRoundTrip(fields: seq<Entry>, rest: seq<Token>)
    requires forall k :: 0 <= k < |fields| ==> fields[k].index < END_OF_FIELDS
    ensures ReadStream(Stream(fields) + rest) == Some((fields, rest))
  {
    if fields == [] {
      assert Stream(fields) + rest == [Id(END_OF_FIELDS)] + rest;
      assert ([Id(END_OF_FIELDS)] + rest)[1..] == rest;
    } else {
      var more := Stream(fields[1..]) + rest;
      StreamRoundTrip(fields[1..], rest);
      assert Stream(fields) + rest == [Id(fields[0].index), Float(fields[0].value)] + more;
      assert ([Id(fields[0].index), Float(fields[0].value)] + more)[2..] == more;
      assert [Entry(fields[0].index, fields[0].value)] + fields[1..] == fields;
    }
  }

  /** Token by token: each id before its value, and 255 at the end. */
  lemma {:induction false} StreamAt(fields: seq<Entry>, k: nat)
    requires k < |fields|
    ensures var s := Stream(fields);
            && |s| == 2 * |fields| + 1 && s[2 * |fields|] == Id(255)
            && s[2 * k] == Id(fields[k].index) && s[2 * k + 1] == Float(fields[k].value)
  {
    if |fields| > 1 { StreamAt(fields[1..], if k > 0 then k - 1 else 0); } else { assert fields[1..] == []; }
  }

  /** The serializer for more than sixteen fields. */
  class Reflector {
    var tokens: seq<Token>

    constructor ()
      ensures tokens == []
    {
      tokens := [];
    }

    method Write(id: nat, value: real)
      modifies this
      ensures tokens == old(tokens) + [Id(id), Float(value)]
    {
      tokens := tokens + [Id(id)];
      tokens := tokens + [Float(value)];
    }

    method End()
      modifies this
      ensures tokens == old(tokens) + [Id(END_OF_FIELDS)]
    {
      tokens := tokens + [Id(END_OF_FIELDS)];
    }
  }

  /** The fields without the end marker. */
  function Open(fields: seq<Entry>): seq<Token> {
    if fields == [] then [] else Open(fields[..|fields| - 1]) + [Id(fields[|fields| - 1].index),
      Float(fields[|fields| - 1].value)]
  }

  lemma {:induction false} OpenCloses(fields: seq<Entry>, last: seq<Entry>)
    ensures Open(fields) + Stream(last) == Stream(fields + last)
    decreases fields
  {
    if fields == [] {
      assert [] + last == last && [] + Stream(last) == Stream(last);
    } else {
      var front, e := fields[..|fields| - 1], fields[|fields| - 1];
      assert ([e] + last)[1..] == last;
      OpenCloses(front, [e] + last);
      assert fields + last == front + ([e] + last);
    }
  }

  class Attributes {
    var data: seq<Entry>
    var erased: seq<nat>
    var bits: set<nat>
    var minDamage: real
    var maxDamage: real
    /** The attributes as they were when the replicas were last in step. */
    ghost var base: map<nat, real>

    constructor ()
      ensures Valid() && Contents() == map[] && base == map[] && forall i: nat :: !Hazard(i)
    {
      data, erased, bits := [], [], {};
      minDamage, maxDamage := 0.0, 0.0;
      base := map[];
    }

    ghost predicate Valid()
      reads this
    {
      && Sorted(data)
      && Clean(data)
      && (forall i, j :: 0 <= i < j < |erased| ==> erased[i] != erased[j])
      && (forall i :: i in erased ==> i < CLIENT_COUNT && i in bits && i !in Contents())
      && (forall i: nat :: i < CLIENT_COUNT && i !in bits ==> ValueIn(Contents(), i) == ValueIn(base, i))
      && (forall i: nat :: i < CLIENT_COUNT && i in bits && i !in Contents() && i !in erased ==>
        ValueIn(base, i) == 0.0)
    }

    ghost function Contents(): map<nat, real>
      reads this
    {
      ToMap(data)
    }

    /** Absent, marked as changed, yet not on the erased list: a non-zero write would erase `end()`. */
    ghost predicate Hazard(i: nat)
      reads this
    {
      i < CLIENT_COUNT && i in bits && i !in Contents() && i !in erased
    }

    /** `std::find_if` over the data. */
    method Find(index: nat) returns (k: nat)
      requires Valid()
      ensures k <= |data| && (k < |data| <==> index in Contents())
      ensures k < |data| ==> data[k].index == index && Contents()[index] == data[k].value
    {
      k := 0;
      while k < |data| && data[k].index != index
        invariant k <= |data| && forall j :: 0 <= j < k ==> data[j].index != index
      {
        k := k + 1;
      }
      if k < |data| { ToMapAt(data, k); }
      InMap(data, index);
    }

    method GetValue(index: nat) returns (value: real)
      requires Valid()
      ensures value == ValueIn(Contents(), index)
    {
      var k := Find(index);
      value := if k < |data| then data[k].value else 0.0;
    }

    /**
      `SetValue` acts as a plain map, but for the one call that erases `end()`, which has no defined outcome: the
      answer is false then and nothing is done. Such a call becomes possible exactly by writing zero to an
      attribute that is absent and not on the erased list.
     */
    method SetValue(index: nat, value: real) returns (defined: bool)
      requires Valid()
      modifies this
      ensures Valid() && base == old(base) && minDamage == old(minDamage) && maxDamage == old(maxDamage)
      ensures defined <==> !(value != 0.0 && old(Hazard(index)))
      ensures Contents() == if index >= CLIENT_COUNT || !defined then old(Contents())
                            else if value == 0.0 then old(Contents()) - {index}
                            else old(Contents())[index := value]
      ensures forall i: nat :: Hazard(i) <==>
                old(Hazard(i)) || (i == index < CLIENT_COUNT && value == 0.0 && i !in old(Contents())
                  && i !in old(erased))
    {
      defined := true;
      var k := Find(index);
      if index < CLIENT_COUNT {
        if k < |data| {
          if value == 0.0 {
            Remove(k);
            erased := erased + [index];
          } else {
            Replace(k, value);
          }
        } else if value != 0.0 {
          if index in bits {
            if index !in erased {
              return false;
            }
            Unerase(index);
          }
          Insert(index, value);
        }
        bits := bits + {index};
      }
    }

    /** `mData.erase(it)` */
    method Remove(k: nat)
      requires Sorted(data) && Clean(data) && k < |data|
      modifies this`data
      ensures Sorted(data) && Clean(data) && Contents() == old(Contents()) - {old(data)[k].index}
    {
      RemoveEntry(data, k);
      data := data[..k] + data[k + 1..];
    }

    /** `std::get<1>(*it) = value` */
    method Replace(k: nat, value: real)
      requires Sorted(data) && Clean(data) && k < |data| && value != 0.0
      modifies this`data
      ensures Sorted(data) && Clean(data) && Contents() == old(Contents())[old(data)[k].index := value]
    {
      ReplaceEntry(data, k, value);
      data := data[k := Entry(data[k].index, value)];
    }

    /** `push_back` and `std::sort`: the new entry ends up before the first larger index. */
    method Insert(index: nat, value: real)
      requires Sorted(data) && Clean(data) && index !in Contents() && index < CLIENT_COUNT && value != 0.0
      modifies this`data
      ensures Sorted(data) && Clean(data) && Contents() == old(Contents())[index := value]
    {
      var k := |data|;
      while k > 0 && data[k - 1].index > index
        invariant 0 <= k <= |data| && forall j :: k <= j < |data| ==> data[j].index > index
      {
        k := k - 1;
      }
      if k > 0 { ToMapAt(data, k - 1); }
      InsertEntry(data, k, Entry(index, value));
      data := data[..k] + [Entry(index, value)] + data[k..];
    }

    /** `mErasedData.erase(std::find(...))` */
    method Unerase(index: nat)
      requires index in erased && forall i, j :: 0 <= i < j < |erased| ==> erased[i] != erased[j]
      modifies this`erased
      ensures forall i, j :: 0 <= i < j < |erased| ==> erased[i] != erased[j]
      ensures forall i :: i in erased <==> i in old(erased) && i != index
    {
      var k := 0;
      while erased[k] != index
        invariant 0 <= k < |erased| && index !in erased[..k]
        decreases |erased| - k
      {
        k := k + 1;
      }
      ghost var was := erased;
      erased := erased[..k] + erased[k + 1..];
      assert forall j :: 0 <= j < |was| && j != k ==> was[j] == erased[if j < k then j else j - 1];
    }

    method SetWeaponDamage(min: real, max: real)
      requires Valid()
      modifies this`minDamage, this`maxDamage
      ensures Valid() && minDamage == min && maxDamage == max
    {
      minDamage, maxDamage := min, max;
    }

    /** The changed entries of a prefix of the data. */
    static function Changed(s: seq<Entry>, bits: set<nat>): (r: seq<Entry>)
      ensures forall e :: e in r <==> e in s && e.index in bits
    {
      if s == [] then []
      else Changed(s[..|s| - 1], bits) + if s[|s| - 1].index in bits then [s[|s| - 1]] else []
    }

    static function Zeros(s: seq<nat>): (r: seq<Entry>)
      ensures |r| == |s| && forall k :: 0 <= k < |r| ==> r[k] == Entry(s[k], 0.0)
    {
      if s == [] then [] else Zeros(s[..|s| - 1]) + [Entry(s[|s| - 1], 0.0)]
    }

    /** The fields a delta consists of. */
    ghost function Delta(): seq<Entry>
      reads this
    {
      Changed(data, bits) + Zeros(erased) + [Entry(MIN_DAMAGE, minDamage), Entry(MAX_DAMAGE, maxDamage)]
    }

    method WriteReflection(stream: Reflector)
      requires Valid() && stream.tokens == []
      modifies stream
      ensures stream.tokens == Stream(Delta())
    {
      hide Open, Stream, Changed, Zeros;
      ghost var fields: seq<Entry> := [];
      NoFields(bits);
      for k := 0 to |data|
        invariant fields == Changed(data[..k], bits) && stream.tokens == Open(fields)
      {
        ChangedGrows(data, k, bits);
        OpenGrows(fields, data[k]);
        if data[k].index in bits {
          stream.Write(data[k].index, data[k].value);
          fields := fields + [data[k]];
        }
      }
      assert data[..|data|] == data && fields + [] == fields;
      for k := 0 to |erased|
        invariant fields == Changed(data, bits) + Zeros(erased[..k]) && stream.tokens == Open(fields)
      {
        ZerosGrow(erased, k);
        OpenGrows(fields, Entry(erased[k], 0.0));
        stream.Write(erased[k], 0.0);
        fields := fields + [Entry(erased[k], 0.0)];
      }
      assert erased[..|erased|] == erased;
      stream.Write(MIN_DAMAGE, minDamage);
      stream.Write(MAX_DAMAGE, maxDamage);
      stream.End();
      EndOfStream(fields, Entry(MIN_DAMAGE, minDamage), Entry(MAX_DAMAGE, maxDamage));
    }

    method ResetReflectionBits()
      requires Valid()
      modifies this`bits, this`erased, this`base
      ensures Valid() && Contents() == old(Contents()) && base == Contents() && forall i: nat :: !Hazard(i)
    {
      bits := {};
      erased := [];
      base := Contents();
    }

    /**
      The fields of a delta: what is present and marked as changed, with its value, what is on the erased list, as zero,
      and at the end the weapon damage.
     */
    lemma DeltaIs(i: nat, value: real)
      requires Valid() && i < CLIENT_COUNT
      ensures Entry(i, value) in Delta() <==>
              (i in bits && i in Contents() && value == Contents()[i]) || (i in erased && value == 0.0)
      ensures var n := |Delta()|;
              n >= 2 && Delta()[n - 2] == Entry(111, minDamage) && Delta()[n - 1] == Entry(112, maxDamage)
    {
      hide ToMap, Changed, Zeros;
      var a, b, c := Changed(data, bits), Zeros(erased), [Entry(MIN_DAMAGE, minDamage), Entry(MAX_DAMAGE, maxDamage)];
      assert Entry(i, value) in Delta() <==> Entry(i, value) in a || Entry(i, value) in b || Entry(i, value) in c;
      InMap(data, i);
      if k :| 0 <= k < |data| && data[k].index == i {
        ToMapAt(data, k);
        assert data[k] == Entry(i, Contents()[i]);
        forall e | e in data && e.index == i
          ensures e == data[k]
        {}
      }
      assert Entry(i, value) in b <==> i in erased && value == 0.0 by {
        if k :| 0 <= k < |erased| && erased[k] == i { assert b[k] == Entry(i, 0.0); }
      }
    }

    /** No field is written twice, and none can be taken for the end marker. */
    lemma DeltaIsDistinct()
      requires Valid()
      ensures DistinctIds(Delta()) && forall k :: 0 <= k < |Delta()| ==> Delta()[k].index < END_OF_FIELDS
    {
      hide ToMap;
      var a, b := Changed(data, bits), Zeros(erased);
      ChangedSorted(data, bits);
      forall i | 0 <= i < |a|
        ensures a[i].index < CLIENT_COUNT && a[i].index !in erased
      {
        assert a[i] in a && a[i] in data;
        InMap(data, a[i].index);
      }
      assert forall j :: 0 <= j < |b| ==> erased[j] in erased && b[j].index == erased[j];
      JoinDistinct(a, b);
      JoinDistinct(a + b, [Entry(MIN_DAMAGE, minDamage), Entry(MAX_DAMAGE, maxDamage)]);
    }

    /**
      A replica in step at the last reset that takes the fields of a delta has the current attributes, and
      the current weapon damage.
     */
    lemma DeltaSyncs(i: nat)
      requires Valid()
      ensures i < CLIENT_COUNT ==> ValueIn(Apply(base, Delta()), i) == ValueIn(Contents(), i)
      ensures ValueIn(Apply(base, Delta()), MIN_DAMAGE) == minDamage
        && ValueIn(Apply(base, Delta()), MAX_DAMAGE) == maxDamage
    {
      hide ToMap, Changed, Zeros, Apply, DistinctIds;
      var a, b := Changed(data, bits), Zeros(erased);
      DeltaIsDistinct();
      ApplyAt(base, Delta(), i);
      ApplyAt(base, Delta(), MIN_DAMAGE);
      ApplyAt(base, Delta(), MAX_DAMAGE);
      assert Delta()[|a| + |b|] == Entry(MIN_DAMAGE, minDamage)
        && Delta()[|a| + |b| + 1] == Entry(MAX_DAMAGE, maxDamage);
      if i < CLIENT_COUNT {
        InMap(data, i);
        if i in bits && i in Contents() {
          var k :| 0 <= k < |data| && data[k].index == i;
          ToMapAt(data, k);
          assert data[k] in a;
          var j :| 0 <= j < |a| && a[j] == data[k];
          assert Delta()[j] == data[k];
        } else if i in erased {
          var k :| 0 <= k < |erased| && erased[k] == i;
          assert Delta()[|a| + k] == Entry(i, 0.0);
        } else {
          NotWritten(i);
        }
      }
    }

    /** A reader of the stream finds exactly those fields and stops where the delta ends. */
    lemma DeltaIsRead(rest: seq<Token>)
      requires Valid()
      ensures ReadStream(Stream(Delta()) + rest) == Some((Delta(), rest))
    {
      DeltaIsDistinct();
      StreamRoundTrip(Delta(), rest);
    }

    lemma NotWritten(i: nat)
      requires Valid() && i < CLIENT_COUNT && i !in erased && !(i in bits && i in Contents())
      ensures forall k :: 0 <= k < |Delta()| ==> Delta()[k].index != i
    {
      var a, b := Changed(data, bits), Zeros(erased);
      forall k | 0 <= k < |a|
        ensures a[k].index != i
      {
        assert a[k] in a && a[k] in data;
        InMap(data, i);
      }
      assert forall k :: 0 <= k < |b| ==> b[k].index in erased;
    }
  }

  lemma NoFields(bits: set<nat>)
    ensures Attributes.Changed([], bits) == [] && Attributes.Zeros([]) == [] && Open([]) == []
  {}

  lemma ChangedGrows(s: seq<Entry>, k: nat, bits: set<nat>)
    requires k < |s|
    ensures Attributes.Changed(s[..k + 1], bits)
         == Attributes.Changed(s[..k], bits) + if s[k].index in bits then [s[k]] else []
  {
    assert s[..k + 1][..k] == s[..k];
  }

  lemma ZerosGrow(s: seq<nat>, k: nat)
    requires k < |s|
    ensures Attributes.Zeros(s[..k + 1]) == Attributes.Zeros(s[..k]) + [Entry(s[k], 0.0)]
  {
    assert s[..k + 1][..k] == s[..k];
  }

  lemma OpenGrows(fields: seq<Entry>, e: Entry)
    ensures Open(fields + [e]) == Open(fields) + [Id(e.index), Float(e.value)]
  {
    assert (fields + [e])[..|fields|] == fields;
  }

  lemma JoinDistinct(a: seq<Entry>, b: seq<Entry>)
    requires DistinctIds(a) && DistinctIds(b)
    requires forall i, j :: 0 <= i < |a| && 0 <= j < |b| ==> a[i].index != b[j].index
    ensures DistinctIds(a + b)
  {}

  lemma {:induction false} ChangedSorted(s: seq<Entry>, bits: set<nat>)
    requires Sorted(s)
    ensures Sorted(Attributes.Changed(s, bits))
  {
    if s != [] {
      var front := s[..|s| - 1];
      ChangedSorted(front, bits);
      forall e | e in Attributes.Changed(front, bits)
        ensures e.index < s[|s| - 1].index
      {
        assert e in front;
      }
    }
  }

  lemma EndOfStream(fields: seq<Entry>, a: Entry, b: Entry)
    ensures Open(fields) + [Id(a.index), Float(a.value)] + [Id(b.index), Float(b.value)] + [Id(END_OF_FIELDS)]
         == Stream(fields + [a, b])
  {
    OpenCloses(fields, [a, b]);
    assert [a, b][1..] == [b] && [b][1..] == [];
    assert Stream([b]) == [Id(b.index), Float(b.value)] + [Id(END_OF_FIELDS)];
  }
}
