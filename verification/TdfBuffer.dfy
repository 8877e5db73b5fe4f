/** The byte buffer with its cursor, and the loops of the integer code that work on it. */
module TdfBuffer {
  import opened Wrappers
  import opened TdfInteger

  /** What `memcpy` at a position leaves: old bytes before and after the new ones. */
  function Splice(s: seq<Byte>, at: nat, data: seq<Byte>): (r: seq<Byte>)
    requires at <= |s|
    ensures |r| >= at + |data| && r[..at] == s[..at] && r[at..at + |data|] == data
    ensures at == |s| ==> r == s + data
  {
    s[..at] + data + if at + |data| <= |s| then s[at + |data|..] else []
  }

  /** Byte by byte; the bytes grow only if the new ones reach past their end. */
  lemma SpliceAt(s: seq<Byte>, at: nat, data: seq<Byte>)
    requires at <= |s|
    ensures var r, end := Splice(s, at, data), at + |data|;
            && |r| == (if end > |s| then end else |s|)
            && forall i :: 0 <= i < |r| ==> r[i] == if at <= i < end then data[i - at] else s[i]
  {
    var r, end := Splice(s, at, data), at + |data|;
    assert forall i :: end <= i < |r| ==> r[i] == s[end..][i - end];
  }

  lemma SpliceTwice(s: seq<Byte>, at: nat, a: seq<Byte>, b: seq<Byte>)
    requires at <= |s|
    ensures Splice(Splice(s, at, a), at + |a|, b) == Splice(s, at, a + b)
  {}

  lemma SpliceNothing(s: seq<Byte>, at: nat)
    requires at <= |s|
    ensures Splice(s, at, []) == s
  {}

  class DataBuffer {
    var bytes: seq<Byte>
    var position: nat

    constructor (bytes: seq<Byte>)
      ensures this.bytes == bytes && position == 0
    {
      this.bytes, position := bytes, 0;
    }

    ghost predicate Valid()
      reads this
    {
      position <= |bytes|
    }

    /** The bytes from the cursor on. */
    ghost function Rest(): seq<Byte>
      reads this
      requires Valid()
    {
      bytes[position..]
    }

    /** `data` was written at the old cursor. */
    twostate predicate Wrote(data: seq<Byte>)
      reads this
      requires old(Valid())
    {
      bytes == Splice(old(bytes), old(position), data) && position == old(position) + |data|
    }

    method Write(data: seq<Byte>)
      requires Valid()
      modifies this
      ensures Valid() && Wrote(data)
    {
      bytes := bytes[..position] + data + if position + |data| <= |bytes| then bytes[position + |data|..] else [];
      position := position + |data|;
    }

    /** `read<uint8_t>` `n` times; nothing is read if the bytes do not suffice. */
    method Read(n: nat) returns (r: Option<seq<Byte>>)
      requires Valid()
      modifies this`position
      ensures Valid() && r.Some? == (n <= |old(Rest())|)
      ensures r.Some? ==> r.value == old(Rest())[..n] && Rest() == old(Rest())[n..]
      ensures r.None? ==> position == old(position)
    {
      if position + n <= |bytes| {
        r := Some(bytes[position..position + n]);
        position := position + n;
      } else {
        r := None;
      }
    }

    method EncodeTdfInteger(n: nat)
      requires Valid()
      modifies this
      ensures Valid() && Wrote(Encode(n))
    {
      hide Splice, EncodeMore;
      if n < 0x40 {
        Write([n]);
      } else {
        ghost var start, at := bytes, position;
        ghost var done: seq<Byte> := [n % 0x40 + 0x80];
        Write([n % 0x40 + 0x80]);
        var value: nat := n / 0x40;
        while value >= 0x80
          invariant Valid() && at <= |start|
          invariant bytes == Splice(start, at, done) && position == at + |done|
          invariant done + EncodeMore(value) == Encode(n)
        {
          MoreStep(done, value);
          SpliceTwice(start, at, done, [value % 0x80 + 0x80]);
          Write([value % 0x80 + 0x80]);
          done := done + [value % 0x80 + 0x80];
          value := value / 0x80;
        }
        MoreStep(done, value);
        SpliceTwice(start, at, done, [value]);
        Write([value]);
      }
    }

    /** The reading loop; the groups occupy different bits, so adding them is or-ing them. */
    method DecodeTdfInteger() returns (r: Option<nat>)
      requires Valid()
      modifies this`position
      ensures Valid()
      ensures match Decode(old(Rest()))
              case None => r == None
              case Some(d) => r == Some(d.value) && Rest() == d.rest
    {
      hide Plus, DecodeMore;
      ghost var all := Rest();
      var first := Read(1);
      if first.None? {
        return None;
      }
      var value: nat := first.value[0];
      if value >= 0x80 {
        value := value % 0x40;
        var unit: nat, i := 0x40, 1;
        PlusFacts(value, unit);
        while i < 8
          invariant 1 <= i <= 8 && Valid()
          invariant match DecodeMore(Rest(), 8 - i)
                    case None => Decode(all) == None
                    case Some(d) => Decode(all) == Some(Decoded(Plus(value, unit, d.value), d.rest))
        {
          ghost var more := Rest();
          NoMore(more);
          var next := Read(1);
          if next.None? {
            return None;
          }
          GroupStep(more, 8 - i, value, unit);
          value := Plus(value, unit, next.value[0] % 0x80);
          if next.value[0] < 0x80 {
            return Some(value);
          }
          unit, i := unit * 0x80, i + 1;
        }
        PlusFacts(value, unit);
        NoMore(Rest());
      }
      return Some(value);
    }
  }

  lemma MoreStep(done: seq<Byte>, value: nat)
    ensures value < 0x80 ==> EncodeMore(value) == [value]
    ensures value >= 0x80 ==> (done + [value % 0x80 + 0x80]) + EncodeMore(value / 0x80) == done + EncodeMore(value)
  {}

  /** A value with a number in the bits from `unit` on. */
  function Plus(value: nat, unit: nat, d: nat): nat { value + unit * d }

  lemma PlusFacts(value: nat, unit: nat)
    ensures Plus(value, unit, 0) == value
    ensures forall d: nat :: Plus(value, 0x40, d) == value + 0x40 * d
  {}

  lemma NoMore(b: seq<Byte>)
    ensures DecodeMore(b, 0) == Some(Decoded(0, b))
    ensures forall k: nat :: k > 0 && b == [] ==> DecodeMore(b, k) == None
  {}

  /** One more group: the value grows by its seven bits, the unit by a factor of 128. */
  lemma GroupStep(b: seq<Byte>, k: nat, value: nat, unit: nat)
    requires b != [] && k > 0
    ensures b[0] < 0x80 ==> DecodeMore(b, k) == Some(Decoded(b[0], b[1..])) && b[0] % 0x80 == b[0]
    ensures b[0] >= 0x80 ==>
      match DecodeMore(b[1..], k - 1)
      case None => DecodeMore(b, k) == None
      case Some(d) =>
        && DecodeMore(b, k) == Some(Decoded(b[0] % 0x80 + 0x80 * d.value, d.rest))
        && Plus(value, unit, b[0] % 0x80 + 0x80 * d.value) == Plus(Plus(value, unit, b[0] % 0x80), unit * 0x80, d.value)
  {
    if b[0] >= 0x80 && DecodeMore(b[1..], k - 1).Some? {
      Distribute(unit, b[0] % 0x80, DecodeMore(b[1..], k - 1).value.value);
    }
  }

  lemma Distribute(u: nat, a: nat, d: nat)
    ensures u * (a + 0x80 * d) == u * a + (u * 0x80) * d
  {}
}
