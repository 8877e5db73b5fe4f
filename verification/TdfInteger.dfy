/**
  The variable-length integers of the TDF format: six bits in the first byte, seven in each further one,
  the top bit set in all bytes but the last.
 */
module TdfInteger {
  import opened Wrappers

  type Byte = n: nat | n < 256

  /** What `encode_tdf_integer` writes, after the first byte. */
  function EncodeMore(m: nat): (b: seq<Byte>)
    ensures |b| >= 1 && b[|b| - 1] < 0x80 && forall i :: 0 <= i < |b| - 1 ==> b[i] >= 0x80
  {
    if m < 0x80 then [m] else [m % 0x80 + 0x80] + EncodeMore(m / 0x80)
  }

  /** What `encode_tdf_integer` writes: exactly the last byte has its top bit clear. */
  function Encode(n: nat): (b: seq<Byte>)
    ensures |b| >= 1 && b[|b| - 1] < 0x80 && forall i :: 0 <= i < |b| - 1 ==> b[i] >= 0x80
  {
    if n < 0x40 then [n] else [n % 0x40 + 0x80] + EncodeMore(n / 0x40)
  }

  datatype Decoded = Decoded(value: nat, rest: seq<Byte>)

  /** At most `k` seven-bit groups, the least significant first; none if the bytes run out. */
  function DecodeMore(b: seq<Byte>, k: nat): (r: Option<Decoded>)
    ensures r.Some? ==> r.value.value < Power(k) && |r.value.rest| <= |b|
    decreases k
  {
    if k == 0 then Some(Decoded(0, b))
    else if b == [] then None
    else if b[0] < 0x80 then
      PowerGrows(k);
      Some(Decoded(b[0], b[1..]))
    else
      match DecodeMore(b[1..], k - 1)
      case None => None
      case Some(d) => Some(Decoded(b[0] % 0x80 + 0x80 * d.value, d.rest))
  }

  /** What `decode_tdf_integer` returns, and the bytes it leaves. It reads eight bytes at most. */
  function Decode(b: seq<Byte>): (r: Option<Decoded>)
    ensures r.Some? ==> r.value.value < LIMIT && |r.value.rest| < |b|
  {
    LimitIsPower();
    if b == [] then None
    else if b[0] < 0x80 then Some(Decoded(b[0], b[1..]))
    else
      match DecodeMore(b[1..], 7)
      case None => None
      case Some(d) => Some(Decoded(b[0] % 0x40 + 0x40 * d.value, d.rest))
  }

  /** 128 to the power of `k`. */
  function Power(k: nat): (p: nat)
    ensures p >= 1
  {
    if k == 0 then 1 else 0x80 * Power(k - 1)
  }

  lemma PowerGrows(k: nat)
    requires k > 0
    ensures Power(k) >= 0x80
  {}

  /** The values below this bound survive a round trip. */
  const LIMIT: nat := 0x80_0000_0000_0000

  lemma LimitIsPower()
    ensures LIMIT == 0x40 * Power(7)
  {
    assert Power(1) == 0x80 && Power(2) == 0x4000 && Power(3) == 0x20_0000 && Power(4) == 0x1000_0000;
    assert Power(5) == 0x8_0000_0000 && Power(6) == 0x400_0000_0000 && Power(7) == 0x2_0000_0000_0000;
  }

  /** The seven-bit groups decode to the number they encode if `k` of them can hold it. */
  lemma {:induction false} DecodeEncodedMore(m: nat, rest: seq<Byte>, k: nat)
    requires k > 0
    ensures m < Power(k) ==> DecodeMore(EncodeMore(m) + rest, k) == Some(Decoded(m, rest))
    ensures m >= Power(k) ==> DecodeMore(EncodeMore(m) + rest, k).Some?
    decreases k
  {
    hide Power;
    if m < 0x80 {
      PowerGrows(k);
      assert (EncodeMore(m) + rest)[1..] == rest;
    } else {
      var low: Byte, more := m % 0x80 + 0x80, EncodeMore(m / 0x80) + rest;
      assert EncodeMore(m) + rest == [low] + more;
      assert ([low] + more)[1..] == more;
      GroupSplits(m, k);
      if k > 1 { DecodeEncodedMore(m / 0x80, rest, k - 1); }
    }
  }

  lemma GroupSplits(m: nat, k: nat)
    requires k > 0 && m >= 0x80
    ensures m < Power(k) <==> k > 1 && m / 0x80 < Power(k - 1)
    ensures (m % 0x80 + 0x80) % 0x80 + 0x80 * (m / 0x80) == m
  {
    assert Power(0) == 1;
  }

  lemma DecodeEncoded(n: nat, rest: seq<Byte>, p: nat)
    requires n >= 0x40 && p == Power(7)
    ensures n / 0x40 < p ==> Decode(Encode(n) + rest) == Some(Decoded(n, rest))
    ensures n / 0x40 >= p ==> Decode(Encode(n) + rest).Some?
  {
    hide Power, EncodeMore;
    var tail := EncodeMore(n / 0x40);
    assert (Encode(n) + rest)[1..] == tail + rest;
    DecodeEncodedMore(n / 0x40, rest, 7);
  }

  /** Decoding what was encoded gives the value back, and leaves what followed it, exactly below the limit. */
  lemma RoundTripIff(n: nat, rest: seq<Byte>)
    ensures Decode(Encode(n) + rest) == Some(Decoded(n, rest)) <==> n < LIMIT
    ensures Decode(Encode(n) + rest).Some?
  {
    LimitIsPower();
    if n < 0x40 {
      assert (Encode(n) + rest)[1..] == rest;
    } else {
      hide Power, Decode, Encode;
      DecodeEncoded(n, rest, Power(7));
    }
  }

  /** No encoding is a proper prefix of another. */
  lemma PrefixFree(m: nat, n: nat)
    requires Encode(m) <= Encode(n)
    ensures Encode(m) == Encode(n)
    ensures m < LIMIT && n < LIMIT ==> m == n
  {
    var a, b := Encode(m), Encode(n);
    assert b[|a| - 1] == a[|a| - 1] < 0x80;
    assert a + [] == a && b + [] == b;
    RoundTripIff(m, []);
    RoundTripIff(n, []);
  }

  /** The number of bytes: `k` groups after the first byte hold 6 + 7 * k bits. */
  lemma {:induction false} LengthOfMore(m: nat, k: nat)
    requires k > 0
    ensures |EncodeMore(m)| <= k <==> m < Power(k)
    decreases k
  {
    if m >= 0x80 {
      if k > 1 {
        LengthOfMore(m / 0x80, k - 1);
      }
    } else {
      PowerGrows(k);
    }
  }

  lemma DivideTwice(m: nat, d: nat, p: nat)
    requires d > 0 && p > 0
    ensures d * p > 0 && m / d / p == m / (d * p)
  {
    var k, e := m / d, m % d;
    SplitTwice(m, d, p, k, e, k / p, k % p);
    QuotientIs(m, d * p, k / p, d * (k % p) + e);
  }

  lemma SplitTwice(m: nat, d: nat, p: nat, k: nat, e: nat, q: nat, r: nat)
    requires m == d * k + e && e < d && k == p * q + r && r < p
    ensures m == (d * p) * q + (d * r + e) && d * r + e < d * p
  {
    Regroup(d, p, q, r);
    Multiples(d, r, p);
  }

  lemma Regroup(d: nat, p: nat, q: nat, r: nat)
    ensures d * (p * q + r) == (d * p) * q + d * r
  {}

  lemma QuotientIs(m: nat, d: nat, q: nat, r: nat)
    requires m == d * q + r && r < d
    ensures m / d == q
  {
    var k := m / d;
    if k != q {
      Multiples(d, q, k);
      assert false;
    }
  }

  lemma Multiples(d: nat, a: nat, b: nat)
    requires a != b
    ensures d * a + d <= d * b || d * b + d <= d * a
  {
    if a < b { assert d * (b - a - 1) >= 0; } else { assert d * (a - b - 1) >= 0; }
  }

  lemma {:induction false} EncodeMoreAt(m: nat, i: nat)
    requires i < |EncodeMore(m)|
    ensures EncodeMore(m)[i] == (m / Power(i)) % 0x80 + if i < |EncodeMore(m)| - 1 then 0x80 else 0
    decreases i
  {
    if i == 0 {
      assert m / Power(0) == m;
    } else {
      assert m >= 0x80;
      EncodeMoreAt(m / 0x80, i - 1);
      DivideTwice(m, 0x80, Power(i - 1));
    }
  }

  /**
    The bytes of a number: its low six bits, then seven at a time, the top bit set in all but the last, and no more
    bytes than it has bits for.
   */
  lemma EncodeAt(n: nat, i: nat)
    requires i < |Encode(n)|
    ensures Encode(n)[i] == (if i == 0 then n % 0x40 else (n / (0x40 * Power(i - 1))) % 0x80)
                            + if i < |Encode(n)| - 1 then 0x80 else 0
    ensures i > 0 ==> (i < |Encode(n)| - 1 <==> n / 0x40 >= Power(i))
    ensures |Encode(n)| > 1 <==> n >= 0x40
  {
    if i > 0 {
      EncodeMoreAt(n / 0x40, i - 1);
      DivideTwice(n, 0x40, Power(i - 1));
      LengthOfMore(n / 0x40, i);
    }
  }

  /** A 32-bit value takes at most five bytes, so that the decoder never shifts by more than 27. */
  lemma FiveBytes(n: nat)
    requires n < 0x1_0000_0000
    ensures |Encode(n)| <= 5
    ensures forall i :: 1 <= i < |Encode(n)| ==> i * 7 - 1 <= 27
    ensures Decode(Encode(n)) == Some(Decoded(n, []))
  {
    if n >= 0x40 {
      assert Power(1) == 0x80 && Power(2) == 0x4000 && Power(3) == 0x20_0000 && Power(4) == 0x1000_0000;
      LengthOfMore(n / 0x40, 4);
    }
    assert Encode(n) + [] == Encode(n);
    RoundTripIff(n, []);
  }

  /** What `k` bytes can decode to. */
  lemma {:induction false} DecodedBelow(b: seq<Byte>, k: nat)
    requires DecodeMore(b, k).Some?
    ensures var read := |b| - |DecodeMore(b, k).value.rest|;
            read <= k && DecodeMore(b, k).value.value < Power(read)
    decreases k
  {
    if k > 0 && b[0] >= 0x80 {
      DecodedBelow(b[1..], k - 1);
    } else if k > 0 {
      PowerGrows(1);
    }
  }

  /**
    No shorter byte string decodes to the same value, except for the values from 64 to 127: the encoder
    spends two bytes on them, but the decoder takes a first byte below 0x80 as the whole value.
   */
  lemma MinimalIff(n: nat)
    requires n < LIMIT
    ensures (forall b: seq<Byte> :: Decode(b) == Some(Decoded(n, [])) ==> |Encode(n)| <= |b|) <==> !(0x40 <= n < 0x80)
  {
    if 0x40 <= n < 0x80 {
      var b: seq<Byte> := [n];
      assert Decode(b) == Some(Decoded(n, [])) && |Encode(n)| > |b|;
    } else {
      forall b: seq<Byte> | Decode(b) == Some(Decoded(n, []))
        ensures |Encode(n)| <= |b|
      {
        if n >= 0x80 { AtLeastAsLong(n, b); }
      }
    }
  }

  /** A number of two bytes or more is not read from fewer than it is written with. */
  lemma AtLeastAsLong(n: nat, b: seq<Byte>)
    requires n >= 0x80 && Decode(b).Some? && Decode(b).value.value == n
    ensures |Encode(n)| <= |b| - |Decode(b).value.rest|
  {
    assert b[0] >= 0x80;
    DecodedBelow(b[1..], 7);
    var k := |b| - 1 - |Decode(b).value.rest|;
    assert n / 0x40 == DecodeMore(b[1..], 7).value.value;
    assert k > 0;
    LengthOfMore(n / 0x40, k);
  }

  lemma LongerIsLonger(m: nat, n: nat)
    requires m <= n
    ensures |Encode(m)| <= |Encode(n)|
  {
    hide EncodeMore;
    if m >= 0x40 {
      var k := |EncodeMore(n / 0x40)|;
      LengthOfMore(n / 0x40, k);
      assert m / 0x40 <= n / 0x40;
      LengthOfMore(m / 0x40, k);
    }
  }
}
