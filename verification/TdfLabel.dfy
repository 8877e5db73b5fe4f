/** Field labels: up to four characters packed into three bytes, six bits each. */
module TdfLabel {
  import opened TdfInteger

  /** Byte `i` of a number, the least significant first: `(x >> 8 * i) & 0xFF`. */
  function ByteAt(x: nat, i: nat): Byte {
    if i == 0 then x % 0x100 else ByteAt(x / 0x100, i - 1)
  }

  /** The number with these bytes, the least significant first. */
  function FromBytes(a: Byte, b: Byte, c: Byte, d: Byte): nat {
    a + 0x100 * (b + 0x100 * (c + 0x100 * d))
  }

  lemma LowByte(a: Byte, x: nat)
    ensures (a + 0x100 * x) % 0x100 == a && (a + 0x100 * x) / 0x100 == x
  {}

  lemma BytesBack(a: Byte, b: Byte, c: Byte, d: Byte)
    ensures var x := FromBytes(a, b, c, d);
            ByteAt(x, 0) == a && ByteAt(x, 1) == b && ByteAt(x, 2) == c && ByteAt(x, 3) == d
    ensures FromBytes(a, b, c, d) / 0x100 == b + 0x100 * (c + 0x100 * d)
    ensures FromBytes(a, b, c, d) < 0x1_0000_0000
  {
    var x := FromBytes(a, b, c, d);
    LowByte(a, b + 0x100 * (c + 0x100 * d));
    LowByte(b, c + 0x100 * d);
    LowByte(c, d);
    assert ByteAt(x, 1) == ByteAt(b + 0x100 * (c + 0x100 * d), 0);
    assert ByteAt(x, 2) == ByteAt(b + 0x100 * (c + 0x100 * d), 1) == ByteAt(c + 0x100 * d, 0);
    assert ByteAt(x, 3) == ByteAt(b + 0x100 * (c + 0x100 * d), 2) == ByteAt(c + 0x100 * d, 1) == ByteAt(d, 0);
  }

  lemma AllBytes(x: nat)
    requires x < 0x1_0000_0000
    ensures FromBytes(ByteAt(x, 0), ByteAt(x, 1), ByteAt(x, 2), ByteAt(x, 3)) == x
    ensures x < 0x100_0000 ==> ByteAt(x, 3) == 0
  {
    assert ByteAt(x, 1) == ByteAt(x / 0x100, 0);
    assert ByteAt(x, 2) == ByteAt(x / 0x100, 1) == ByteAt(x / 0x100 / 0x100, 0);
    assert ByteAt(x, 3) == ByteAt(x / 0x100, 2) == ByteAt(x / 0x100 / 0x100, 1) == ByteAt(x / 0x100 / 0x100 / 0x100, 0);
  }

  /** `BSWAP32` */
  function Swap32(x: nat): nat {
    FromBytes(ByteAt(x, 3), ByteAt(x, 2), ByteAt(x, 1), ByteAt(x, 0))
  }

  /** The six bits at place `i`: `(x >> 6 * i) & 0x3F`. */
  function SextetOf(x: nat, i: nat): (v: nat)
    ensures v < 0x40
  {
    if i == 0 then x % 0x40 else SextetOf(x / 0x40, i - 1)
  }

  /** The six bits of the character at `i`, `0x20 | (c & 0x1F)`; none past the end. */
  function SextetAt(name: seq<Byte>, i: nat): (v: nat)
    ensures v < 0x40 && (v >= 0x20 <==> i < |name|) && (v == 0 <==> i >= |name|)
  {
    if i < |name| then 0x20 + name[i] % 0x20 else 0
  }

  /** The four characters, the first in the highest place. */
  function Packed(name: seq<Byte>): nat {
    SextetAt(name, 3) + 0x40 * (SextetAt(name, 2) + 0x40 * (SextetAt(name, 1) + 0x40 * SextetAt(name, 0)))
  }

  function CompressLabel(name: seq<Byte>): nat {
    Swap32(Packed(name)) / 0x100
  }

  /** One character, none for six zero bits. */
  function Letter(v: nat): (s: seq<Byte>)
    requires v < 0x40
    ensures |s| <= 1 && forall i :: 0 <= i < |s| ==> Allowed(s[i])
  {
    if v > 0 then [0x40 + v % 0x20] else []
  }

  function DecompressLabel(x: nat): (s: seq<Byte>)
    ensures ValidLabel(s)
  {
    var v := Swap32(x) / 0x100;
    Letter(SextetOf(v, 3)) + Letter(SextetOf(v, 2)) + Letter(SextetOf(v, 1)) + Letter(SextetOf(v, 0))
  }

  /** The characters a label can carry. */
  predicate Allowed(c: Byte) { 0x40 <= c < 0x60 }

  predicate ValidLabel(name: seq<Byte>) {
    |name| <= 4 && forall i :: 0 <= i < |name| ==> Allowed(name[i])
  }

  /** Swapping a 24-bit number and dropping the low byte turns its bytes round; doing it twice changes nothing. */
  lemma Swapped(x: nat)
    requires x < 0x100_0000
    ensures Swap32(x) / 0x100 == FromBytes(ByteAt(x, 2), ByteAt(x, 1), ByteAt(x, 0), 0) < 0x100_0000
    ensures Swap32(Swap32(x) / 0x100) / 0x100 == x
  {
    hide ByteAt;
    var a, b, c := ByteAt(x, 0), ByteAt(x, 1), ByteAt(x, 2);
    AllBytes(x);
    BytesBack(0, c, b, a);
    BytesBack(c, b, a, 0);
    BytesBack(0, a, b, c);
  }

  lemma LowSextet(a: nat, x: nat)
    requires a < 0x40
    ensures (a + 0x40 * x) % 0x40 == a && (a + 0x40 * x) / 0x40 == x
  {}

  lemma SextetsBack(a: nat, b: nat, c: nat, d: nat)
    requires a < 0x40 && b < 0x40 && c < 0x40 && d < 0x40
    ensures var v := d + 0x40 * (c + 0x40 * (b + 0x40 * a));
            SextetOf(v, 0) == d && SextetOf(v, 1) == c && SextetOf(v, 2) == b && SextetOf(v, 3) == a
  {
    var v := d + 0x40 * (c + 0x40 * (b + 0x40 * a));
    LowSextet(d, c + 0x40 * (b + 0x40 * a));
    LowSextet(c, b + 0x40 * a);
    LowSextet(b, a);
    assert SextetOf(v, 1) == SextetOf(c + 0x40 * (b + 0x40 * a), 0);
    assert SextetOf(v, 2) == SextetOf(c + 0x40 * (b + 0x40 * a), 1) == SextetOf(b + 0x40 * a, 0);
    assert SextetOf(v, 3) == SextetOf(c + 0x40 * (b + 0x40 * a), 2) == SextetOf(b + 0x40 * a, 1) == SextetOf(a, 0);
  }

  lemma PackedBack(name: seq<Byte>)
    ensures Packed(name) < 0x100_0000
    ensures forall i: nat :: i < 4 ==> SextetOf(Packed(name), i) == SextetAt(name, 3 - i)
  {
    hide SextetAt, SextetOf;
    SextetsBack(SextetAt(name, 0), SextetAt(name, 1), SextetAt(name, 2), SextetAt(name, 3));
  }

  /** The label that comes back: the first four characters, brought into the allowed range. */
  lemma {:induction false} Decompressed(name: seq<Byte>)
    ensures var back := DecompressLabel(CompressLabel(name));
            |back| == (if |name| < 4 then |name| else 4) && forall i :: 0 <= i < |back| ==>
              back[i] == 0x40 + name[i] % 0x20
  {
    hide Swap32, SextetOf, Packed, SextetAt, Letter;
    PackedBack(name);
    Swapped(Packed(name));
    var v := Swap32(CompressLabel(name)) / 0x100;
    assert v == Packed(name);
    assert SextetOf(v, 3) == SextetAt(name, 0) && SextetOf(v, 2) == SextetAt(name, 1);
    assert SextetOf(v, 1) == SextetAt(name, 2) && SextetOf(v, 0) == SextetAt(name, 3);
    LetterAt(name, 0);
    LetterAt(name, 1);
    LetterAt(name, 2);
    LetterAt(name, 3);
  }

  lemma LetterAt(name: seq<Byte>, i: nat)
    ensures Letter(SextetAt(name, i)) == if i < |name| then [0x40 + name[i] % 0x20] else []
  {}

  /** A label survives exactly if it has at most four characters, all of them allowed. */
  lemma {:induction false} RoundTripIff(name: seq<Byte>)
    ensures DecompressLabel(CompressLabel(name)) == name <==> ValidLabel(name)
  {
    hide CompressLabel, DecompressLabel;
    Decompressed(name);
  }

  /** `write<uint32_t>` on a little-endian machine. */
  function LittleEndian(x: nat): (b: seq<Byte>)
    ensures |b| == 4
  {
    [ByteAt(x, 0), ByteAt(x, 1), ByteAt(x, 2), ByteAt(x, 3)]
  }

  function FromLittleEndian(b: seq<Byte>): nat
    requires |b| == 4
  {
    FromBytes(b[0], b[1], b[2], b[3])
  }

  /** `WriteHeader`: the label's code and, in the top byte, the type. */
  function HeaderBytes(name: seq<Byte>, kind: Byte): (b: seq<Byte>)
    ensures |b| == 4
  {
    LittleEndian(CompressLabel(name) + kind * 0x100_0000)
  }

  /** `ReadHeader` */
  function HeaderLabel(b: seq<Byte>): (name: seq<Byte>)
    requires |b| == 4
    ensures ValidLabel(name)
  {
    DecompressLabel(FromLittleEndian(b) % 0x100_0000)
  }

  function HeaderKind(b: seq<Byte>): nat
    requires |b| == 4
  {
    FromLittleEndian(b) / 0x100_0000
  }

  /** The header in bytes: the three label bytes, the highest first, then the type. */
  lemma HeaderIs(name: seq<Byte>, kind: Byte)
    ensures var p := Packed(name); HeaderBytes(name, kind) == [ByteAt(p, 2), ByteAt(p, 1), ByteAt(p, 0), kind]
  {
    hide ByteAt, Swap32;
    var p := Packed(name);
    PackedBack(name);
    Swapped(p);
    BytesBack(ByteAt(p, 2), ByteAt(p, 1), ByteAt(p, 0), kind);
  }

  /**
    A header in bits: six for each of four characters, none of them set for a missing one, the first character in the
    highest; then the type.
   */
  lemma HeaderBits(name: seq<Byte>, kind: Byte)
    ensures var b := HeaderBytes(name, kind);
            var six := seq(4, i requires 0 <= i => if i < |name| then 32 + name[i] % 32 else 0);
            && b[0] == 4 * six[0] + six[1] / 16
            && b[1] == 16 * (six[1] % 16) + six[2] / 4
            && b[2] == 64 * (six[2] % 4) + six[3]
            && b[3] == kind
  {
    hide ByteAt, HeaderBytes;
    HeaderIs(name, kind);
    SextetBytes(SextetAt(name, 0), SextetAt(name, 1), SextetAt(name, 2), SextetAt(name, 3));
  }

  lemma SextetBytes(a: nat, b: nat, c: nat, d: nat)
    requires a < 0x40 && b < 0x40 && c < 0x40 && d < 0x40
    ensures var p := d + 0x40 * (c + 0x40 * (b + 0x40 * a));
            && ByteAt(p, 2) == 4 * a + b / 0x10
            && ByteAt(p, 1) == 0x10 * (b % 0x10) + c / 4
            && ByteAt(p, 0) == 0x40 * (c % 4) + d
  {
    var x: Byte, y: Byte, z: Byte := 0x40 * (c % 4) + d, 0x10 * (b % 0x10) + c / 4, 4 * a + b / 0x10;
    BytesBack(x, y, z, 0);
    assert d + 0x40 * (c + 0x40 * (b + 0x40 * a)) == FromBytes(x, y, z, 0);
  }

  /**
    A header gives back its type, and its label exactly if that is valid. Its first byte has the top bit
    set exactly if the label is not empty, so it is neither the terminator of a struct nor a stub marker.
   */
  lemma {:induction false} HeaderRoundTrip(name: seq<Byte>, kind: Byte)
    ensures HeaderKind(HeaderBytes(name, kind)) == kind
    ensures HeaderLabel(HeaderBytes(name, kind)) == name <==> ValidLabel(name)
    ensures HeaderBytes(name, kind)[0] >= 0x80 <==> name != []
    ensures name == [] ==> HeaderBytes(name, kind)[0] == 0
  {
    hide ByteAt, DecompressLabel, Swap32, Packed, HeaderBytes;
    var p := Packed(name);
    HeaderIs(name, kind);
    PackedBack(name);
    Swapped(p);
    RoundTripIff(name);
    FirstByte(name);
  }

  /** The label read from any four bytes: a letter for each group of six bits that is not zero. */
  lemma LabelBits(b: seq<Byte>)
    requires |b| == 4
    ensures var six := [b[0] / 4, 16 * (b[0] % 4) + b[1] / 16, 4 * (b[1] % 16) + b[2] / 64, b[2] % 64];
            var letters := seq(4, i requires 0 <= i < 4 => if six[i] > 0 then [64 + six[i] % 32] else []);
            HeaderLabel(b) == letters[0] + letters[1] + letters[2] + letters[3]
    ensures HeaderKind(b) == b[3]
  {
    hide Swap32, SextetOf, HeaderKind, FromBytes;
    HeaderCode(b);
    BytesSextets(b[0], b[1], b[2]);
  }

  lemma BytesSextets(a: Byte, b: Byte, c: Byte)
    ensures var v := FromBytes(c, b, a, 0);
            && SextetOf(v, 3) == a / 4 && SextetOf(v, 2) == 16 * (a % 4) + b / 16
            && SextetOf(v, 1) == 4 * (b % 16) + c / 64 && SextetOf(v, 0) == c % 64
  {
    hide SextetOf;
    SextetsBack(a / 4, 16 * (a % 4) + b / 16, 4 * (b % 16) + c / 64, c % 64);
  }

  /** The code in a header, its bytes turned round again. */
  lemma HeaderCode(b: seq<Byte>)
    requires |b| == 4
    ensures Swap32(FromLittleEndian(b) % 0x100_0000) / 0x100 == FromBytes(b[2], b[1], b[0], 0)
    ensures HeaderKind(b) == b[3]
  {
    hide Swap32, ByteAt;
    BytesBack(b[0], b[1], b[2], b[3]);
    BytesBack(b[0], b[1], b[2], 0);
    var x, top: nat := FromBytes(b[0], b[1], b[2], 0), b[3];
    assert FromLittleEndian(b) == x + 0x100_0000 * top;
    assert FromLittleEndian(b) % 0x100_0000 == x && FromLittleEndian(b) / 0x100_0000 == top;
    Swapped(x);
  }

  /** A header that does not begin with a zero byte has a label. */
  lemma HeaderNamed(b: seq<Byte>)
    requires |b| == 4 && b[0] != 0
    ensures HeaderLabel(b) != []
  {
    hide Swap32, Letter, SextetOf;
    HeaderCode(b);
    var v := FromBytes(b[2], b[1], b[0], 0);
    assert 0x1_0000 <= v < 0x100_0000;
    HighSextets(v);
    SomeLetter(v);
  }

  lemma HighSextets(v: nat)
    requires 0x1_0000 <= v < 0x100_0000
    ensures SextetOf(v, 3) > 0 || SextetOf(v, 2) > 0
  {
    assert SextetOf(v, 2) == SextetOf(v / 0x40, 1) == SextetOf(v / 0x40 / 0x40, 0);
    assert SextetOf(v, 3) == SextetOf(v / 0x40, 2) == SextetOf(v / 0x40 / 0x40, 1);
    assert SextetOf(v / 0x40 / 0x40, 1) == SextetOf(v / 0x40 / 0x40 / 0x40, 0);
    assert v / 0x40 / 0x40 / 0x40 < 0x40;
  }

  lemma SomeLetter(v: nat)
    requires SextetOf(v, 3) > 0 || SextetOf(v, 2) > 0
    ensures Letter(SextetOf(v, 3)) + Letter(SextetOf(v, 2)) + Letter(SextetOf(v, 1)) + Letter(SextetOf(v, 0)) != []
  {}

  lemma FirstByte(name: seq<Byte>)
    ensures ByteAt(Packed(name), 2) >= 0x80 <==> name != []
    ensures name == [] ==> ByteAt(Packed(name), 2) == 0
  {
    hide SextetAt, Packed, ByteAt;
    PackedBack(name);
    PackedHigh(name);
    HighByte(Packed(name));
  }

  lemma PackedHigh(name: seq<Byte>)
    ensures Packed(name) >= 0x80_0000 <==> name != []
    ensures name == [] ==> Packed(name) == 0
  {
    hide SextetAt;
  }

  lemma HighByte(x: nat)
    requires x < 0x100_0000
    ensures ByteAt(x, 2) >= 0x80 <==> x >= 0x80_0000
    ensures x == 0 ==> ByteAt(x, 2) == 0
  {
    assert ByteAt(x, 2) == ByteAt(x / 0x100, 1) == ByteAt(x / 0x100 / 0x100, 0);
  }

  /** What the character at `i` contributes to the packed number. */
  function Part(name: seq<Byte>, i: nat): nat
    requires i < 4
  {
    SextetAt(name, i) * (if i == 0 then 0x4_0000 else if i == 1 then 0x1000 else if i == 2 then 0x40 else 1)
  }

  /** The loop of `CompressLabel`; the parts occupy different bits, so adding them is or-ing them. */
  method Compress(name: seq<Byte>) returns (code: nat)
    ensures code == CompressLabel(name)
  {
    hide Swap32, SextetAt, Part, Packed;
    var ret := 0;
    var n := if |name| < 4 then |name| else 4;
    for i := 0 to n
      invariant ret == (if i > 0 then Part(name, 0) else 0) + (if i > 1 then Part(name, 1) else 0)
                       + (if i > 2 then Part(name, 2) else 0) + (if i > 3 then Part(name, 3) else 0)
    {
      ret := ret + Part(name, i);
    }
    code := Swap32(ret) / 0x100;
    PackedParts(name);
  }

  lemma PackedParts(name: seq<Byte>)
    ensures Packed(name) == Part(name, 0) + Part(name, 1) + Part(name, 2) + Part(name, 3)
    ensures forall i: nat :: |name| <= i < 4 ==> Part(name, i) == 0
  {}

  /** The characters of the first `i` places. */
  function Letters(v: nat, i: nat): seq<Byte>
    requires i <= 4
  {
    if i == 0 then [] else Letters(v, i - 1) + Letter(SextetOf(v, 4 - i))
  }

  /** The loop of `DecompressLabel`. */
  method Decompress(code: nat) returns (name: seq<Byte>)
    ensures name == DecompressLabel(code)
  {
    hide Swap32, SextetOf;
    var v := Swap32(code) / 0x100;
    name := [];
    for i := 0 to 4
      invariant name == Letters(v, i)
    {
      var val := SextetOf(v, 3 - i);
      if val > 0 {
        name := name + [0x40 + val % 0x20];
      }
    }
    assert Letters(v, 4) == Letters(v, 3) + Letter(SextetOf(v, 0));
    assert Letters(v, 3) == Letters(v, 2) + Letter(SextetOf(v, 1));
    assert Letters(v, 2) == Letters(v, 1) + Letter(SextetOf(v, 2));
    assert Letters(v, 1) == Letter(SextetOf(v, 3));
  }
}
