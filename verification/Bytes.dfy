/** Big-endian integers over byte sequences, and the bounded reader and growing
    writer built on them. Bytes are `bv8`, integers are the fixed-width words of
    the source, so shifts, masks and truncating casts mean what they mean there. */
module Bytes {
  import opened Wrappers

  type byte = bv8

  function Be16(v: bv16): (b: seq<byte>)
    ensures |b| == 2
  {
    [((v >> 8) & 0xFF) as byte, (v & 0xFF) as byte]
  }

  function Be32(v: bv32): (b: seq<byte>)
    ensures |b| == 4
  {
    [((v >> 24) & 0xFF) as byte, ((v >> 16) & 0xFF) as byte, ((v >> 8) & 0xFF) as byte, (v & 0xFF) as byte]
  }

  function Be64(v: bv64): (b: seq<byte>)
    ensures |b| == 8
  {
    [((v >> 56) & 0xFF) as byte, ((v >> 48) & 0xFF) as byte, ((v >> 40) & 0xFF) as byte, ((v >> 32) & 0xFF) as byte,
     ((v >> 24) & 0xFF) as byte, ((v >> 16) & 0xFF) as byte, ((v >> 8) & 0xFF) as byte, (v & 0xFF) as byte]
  }

  // A string length travels as a 16-bit word. Lengths are natural numbers and words
  // are bit vectors, so the two are related nibble by nibble, then byte by byte.

  function NibbleOf(n: nat): bv4
    requires n < 0x10
  {
    n as bv4
  }

  function ByteOf(n: nat): byte
    requires n < 0x100
  {
    ((NibbleOf(n / 0x10) as byte) << 4) | (NibbleOf(n % 0x10) as byte)
  }

  /** The 16-bit word announcing a length. */
  function WordOf(n: nat): bv16
    requires n < 0x1_0000
  {
    Join(ByteOf(n / 0x100), ByteOf(n % 0x100))
  }

  function Join(hi: byte, lo: byte): bv16 {
    ((hi as bv16) << 8) | (lo as bv16)
  }

  function Nat4(v: bv4): nat { v as nat }

  function Nat8(v: byte): nat { v as nat }

  /** The length a 16-bit word announces. */
  function Nat16(v: bv16): nat { v as nat }

  lemma NibbleValue(n: nat)
    requires n < 0x10
    ensures Nat4(NibbleOf(n)) == n
  {
  }

  lemma JoinNibbles(hi: bv4, lo: bv4)
    ensures Nat8(((hi as byte) << 4) | (lo as byte)) == Nat4(hi) * 0x10 + Nat4(lo)
  {
  }

  lemma ByteValue(n: nat)
    requires n < 0x100
    ensures Nat8(ByteOf(n)) == n
  {
    hide NibbleOf, Nat4, Nat8;
    NibbleValue(n / 0x10);
    NibbleValue(n % 0x10);
    JoinNibbles(NibbleOf(n / 0x10), NibbleOf(n % 0x10));
  }

  lemma ByteInverse(v: byte)
    ensures Nat8(v) < 0x100 && ByteOf(Nat8(v)) == v
  {
    var hi, lo := ((v >> 4) & 0xF) as bv4, (v & 0xF) as bv4;
    JoinNibbles(hi, lo);
    assert v == ((hi as byte) << 4) | (lo as byte);
    assert Nat8(v) / 0x10 == Nat4(hi) && Nat8(v) % 0x10 == Nat4(lo);
  }

  lemma JoinValue(hi: byte, lo: byte)
    ensures Nat16(Join(hi, lo)) == Nat8(hi) * 0x100 + Nat8(lo)
  {
  }

  lemma WordValue(n: nat)
    requires n < 0x1_0000
    ensures Nat16(WordOf(n)) == n
  {
    hide ByteOf, Join, Nat8, Nat16;
    ByteValue(n / 0x100);
    ByteValue(n % 0x100);
    JoinValue(ByteOf(n / 0x100), ByteOf(n % 0x100));
  }

  lemma SplitWord(v: bv16) returns (hi: byte, lo: byte)
    ensures Join(hi, lo) == v
  {
    hi, lo := ((v >> 8) & 0xFF) as byte, (v & 0xFF) as byte;
  }

  lemma WordInverse(v: bv16)
    ensures Nat16(v) < 0x1_0000 && WordOf(Nat16(v)) == v
  {
    hide ByteOf, Join, Nat8, Nat16;
    var hi, lo := SplitWord(v);
    JoinValue(hi, lo);
    ByteInverse(hi);
    ByteInverse(lo);
    var h, l := Nat8(hi), Nat8(lo);
    assert Nat16(v) / 0x100 == h && Nat16(v) % 0x100 == l;
  }

  // Wider words are numbers by halves.

  function Nat32(v: bv32): nat {
    Nat16(((v >> 16) & 0xFFFF) as bv16) * 0x1_0000 + Nat16((v & 0xFFFF) as bv16)
  }

  function Word32(n: nat): bv32
    requires n < 0x1_0000_0000
  {
    JoinWords(WordOf(n / 0x1_0000), WordOf(n % 0x1_0000))
  }

  function JoinWords(hi: bv16, lo: bv16): bv32 {
    ((hi as bv32) << 16) | (lo as bv32)
  }

  lemma HalvesOfJoin(hi: bv16, lo: bv16)
    ensures ((JoinWords(hi, lo) >> 16) & 0xFFFF) as bv16 == hi && (JoinWords(hi, lo) & 0xFFFF) as bv16 == lo
  {
  }

  lemma Word32Value(n: nat)
    requires n < 0x1_0000_0000
    ensures Nat32(Word32(n)) == n
  {
    hide WordOf, JoinWords, Nat16;
    HalvesOfJoin(WordOf(n / 0x1_0000), WordOf(n % 0x1_0000));
    WordValue(n / 0x1_0000);
    WordValue(n % 0x1_0000);
  }

  function Nat64(v: bv64): nat {
    Nat32(((v >> 32) & 0xFFFF_FFFF) as bv32) * 0x1_0000_0000 + Nat32((v & 0xFFFF_FFFF) as bv32)
  }

  function Word64(n: nat): bv64
    requires n < 0x1_0000_0000_0000_0000
  {
    JoinDoubleWords(Word32(n / 0x1_0000_0000), Word32(n % 0x1_0000_0000))
  }

  function JoinDoubleWords(hi: bv32, lo: bv32): bv64 {
    ((hi as bv64) << 32) | (lo as bv64)
  }

  lemma HalvesOfDoubleJoin(hi: bv32, lo: bv32)
    ensures ((JoinDoubleWords(hi, lo) >> 32) & 0xFFFF_FFFF) as bv32 == hi && (JoinDoubleWords(hi, lo) & 0xFFFF_FFFF) as bv32 == lo
  {
  }

  lemma Nat64OfJoin(hi: bv32, lo: bv32)
    ensures Nat64(JoinDoubleWords(hi, lo)) == Nat32(hi) * 0x1_0000_0000 + Nat32(lo)
  {
    hide JoinDoubleWords, Nat32;
    HalvesOfDoubleJoin(hi, lo);
  }

  lemma Word64Value(n: nat)
    requires n < 0x1_0000_0000_0000_0000
    ensures Nat64(Word64(n)) == n
  {
    hide Word32, JoinDoubleWords, Nat32, Nat64;
    var high, low := n / 0x1_0000_0000, n % 0x1_0000_0000;
    Nat64OfJoin(Word32(high), Word32(low));
    Word32Value(high);
    Word32Value(low);
  }

  /** The length the first two bytes announce; a shorter input announces none and
      is given one it cannot hold. */
  function StringLength(b: seq<byte>): nat {
    if |b| < 2 then 0x1_0000 else Nat16(Value16(b[..2]))
  }

  predicate CanReadString(b: seq<byte>, maxLength: nat) {
    StringLength(b) <= maxLength && 2 + StringLength(b) <= |b|
  }

  function PrefixedString(s: seq<byte>): seq<byte>
    requires |s| < 0x1_0000
  {
    Be16(WordOf(|s|)) + s
  }

  function Value16(b: seq<byte>): bv16
    requires |b| == 2
  {
    ((b[0] as bv16) << 8) | (b[1] as bv16)
  }

  function Value32(b: seq<byte>): bv32
    requires |b| == 4
  {
    ((b[0] as bv32) << 24) | ((b[1] as bv32) << 16) | ((b[2] as bv32) << 8) | (b[3] as bv32)
  }

  function Value64(b: seq<byte>): bv64
    requires |b| == 8
  {
    ((b[0] as bv64) << 56) | ((b[1] as bv64) << 48) | ((b[2] as bv64) << 40) | ((b[3] as bv64) << 32) |
    ((b[4] as bv64) << 24) | ((b[5] as bv64) << 16) | ((b[6] as bv64) << 8) | (b[7] as bv64)
  }

  lemma Be16RoundTrip(v: bv16, b: seq<byte>)
    requires |b| == 2
    ensures b == Be16(v) <==> Value16(b) == v
  {
    assert Value16(Be16(v)) == v;
    assert Be16(Value16(b)) == b;
  }

  lemma Be32RoundTrip(v: bv32, b: seq<byte>)
    requires |b| == 4
    ensures b == Be32(v) <==> Value32(b) == v
  {
    assert Value32(Be32(v)) == v;
    assert Be32(Value32(b)) == b;
  }

  lemma Be64RoundTrip(v: bv64, b: seq<byte>)
    requires |b| == 8
    ensures b == Be64(v) <==> Value64(b) == v
  {
    hide Be64, Value64;
    ValueOfBe64(v);
    Be64OfValue(b);
  }

  lemma ValueOfBe64(v: bv64)
    ensures Value64(Be64(v)) == v
  {
  }

  lemma Be64OfValue(b: seq<byte>)
    requires |b| == 8
    ensures Be64(Value64(b)) == b
  {
  }

  /** Equal concatenations whose first parts have equal lengths agree part by part. */
  lemma Peel(a: seq<byte>, x: seq<byte>, b: seq<byte>, y: seq<byte>)
    requires a + x == b + y && |a| == |b|
    ensures a == b && x == y
  {
    assert a == (a + x)[..|a|] == b;
    assert x == (a + x)[|a|..] == y;
  }

  /** Writing parts one after another gives the right-nested layout. */
  lemma Regroup(a: seq<byte>, b: seq<byte>, c: seq<byte>)
    ensures a + b + c == a + (b + c)
  {
  }

  lemma Regroup5(a: seq<byte>, b: seq<byte>, c: seq<byte>, d: seq<byte>, e: seq<byte>)
    ensures a + b + c + d + e == a + (b + (c + (d + e)))
  {
  }

  /** A cursor over a byte string: every read either consumes exactly its width
      and yields the bytes it passed over, or fails and moves nothing. */
  class ByteReader {
    const data: seq<byte>
    var offset: nat

    ghost predicate Valid()
      reads this
    {
      offset <= |data|
    }

    constructor (data: seq<byte>)
      ensures Valid() && this.data == data && offset == 0
    {
      this.data := data;
      offset := 0;
    }

    predicate CanRead(count: nat)
      reads this
    {
      offset + count <= |data|
    }

    method ReadU8() returns (r: Option<byte>)
      requires Valid()
      modifies this
      ensures Valid()
      ensures r.Some? <==> old(offset) + 1 <= |data|
      ensures r.Some? ==> offset == old(offset) + 1 && data[old(offset)..offset] == [r.value]
      ensures r.None? ==> offset == old(offset)
    {
      if !CanRead(1) {
        return None;
      }
      r := Some(data[offset]);
      offset := offset + 1;
    }

    method ReadU16() returns (r: Option<bv16>)
      requires Valid()
      modifies this
      ensures Valid()
      ensures r.Some? <==> old(offset) + 2 <= |data|
      ensures r.Some? ==> offset == old(offset) + 2 && data[old(offset)..offset] == Be16(r.value)
      ensures r.None? ==> offset == old(offset)
    {
      if !CanRead(2) {
        return None;
      }
      r := Some(((data[offset] as bv16) << 8) | (data[offset + 1] as bv16));
      Be16RoundTrip(r.value, data[offset..offset + 2]);
      offset := offset + 2;
    }

    method ReadU32() returns (r: Option<bv32>)
      requires Valid()
      modifies this
      ensures Valid()
      ensures r.Some? <==> old(offset) + 4 <= |data|
      ensures r.Some? ==> offset == old(offset) + 4 && data[old(offset)..offset] == Be32(r.value)
      ensures r.None? ==> offset == old(offset)
    {
      if !CanRead(4) {
        return None;
      }
      r := Some(((data[offset] as bv32) << 24) | ((data[offset + 1] as bv32) << 16) |
                ((data[offset + 2] as bv32) << 8) | (data[offset + 3] as bv32));
      Be32RoundTrip(r.value, data[offset..offset + 4]);
      offset := offset + 4;
    }

    method ReadU64() returns (r: Option<bv64>)
      requires Valid()
      modifies this
      ensures Valid()
      ensures r.Some? <==> old(offset) + 8 <= |data|
      ensures r.Some? ==> offset == old(offset) + 8 && data[old(offset)..offset] == Be64(r.value)
      ensures r.None? ==> offset == old(offset)
    {
      if !CanRead(8) {
        return None;
      }
      r := Some(((data[offset] as bv64) << 56) | ((data[offset + 1] as bv64) << 48) |
                ((data[offset + 2] as bv64) << 40) | ((data[offset + 3] as bv64) << 32) |
                ((data[offset + 4] as bv64) << 24) | ((data[offset + 5] as bv64) << 16) |
                ((data[offset + 6] as bv64) << 8) | (data[offset + 7] as bv64));
      Be64RoundTrip(r.value, data[offset..offset + 8]);
      offset := offset + 8;
    }

    method ReadBytes(count: nat) returns (r: Option<seq<byte>>)
      requires Valid()
      modifies this
      ensures Valid()
      ensures r.Some? <==> old(offset) + count <= |data|
      ensures r.Some? ==> offset == old(offset) + count && data[old(offset)..offset] == r.value
      ensures r.None? ==> offset == old(offset)
    {
      if !CanRead(count) {
        return None;
      }
      r := Some(data[offset..offset + count]);
      offset := offset + count;
    }

    /** A length-prefixed string. A length that is too big for the caller or for
        the input fails after the two length bytes were consumed. */
    method ReadString(maxLength: nat) returns (r: Option<seq<byte>>)
      requires Valid()
      modifies this
      ensures Valid()
      ensures r.Some? <==> CanReadString(data[old(offset)..], maxLength)
      ensures r.Some? ==> |r.value| < 0x1_0000 && |r.value| == StringLength(data[old(offset)..])
      ensures r.Some? ==> offset == old(offset) + 2 + |r.value| && data[old(offset)..offset] == PrefixedString(r.value)
      ensures r.None? ==> offset == old(offset) + if old(offset) + 2 <= |data| then 2 else 0
    {
      hide Nat16, WordOf, Value16;
      ghost var start := data[offset..];
      var length := ReadU16();
      if length.None? {
        return None;
      }
      assert start[..2] == Be16(length.value);
      Be16RoundTrip(length.value, start[..2]);
      var n := Nat16(length.value);
      if n > maxLength {
        return None;
      }
      if !CanRead(n) {
        return None;
      }
      r := Some(data[offset..offset + n]);
      offset := offset + n;
      WordInverse(length.value);
    }

    predicate Empty()
      reads this
    {
      offset == |data|
    }
  }

  /** Appends big-endian words to a growing buffer. */
  class ByteWriter {
    var buffer: seq<byte>

    constructor ()
      ensures buffer == []
    {
      buffer := [];
    }

    method WriteU8(v: byte)
      modifies this
      ensures buffer == old(buffer) + [v]
    {
      buffer := buffer + [v];
    }

    method WriteU16(v: bv16)
      modifies this
      ensures buffer == old(buffer) + Be16(v)
    {
      var b := buffer;
      b := b + [((v >> 8) & 0xFF) as byte];
      b := b + [(v & 0xFF) as byte];
      buffer := b;
    }

    method WriteU32(v: bv32)
      modifies this
      ensures buffer == old(buffer) + Be32(v)
    {
      var b := buffer;
      b := b + [((v >> 24) & 0xFF) as byte];
      b := b + [((v >> 16) & 0xFF) as byte];
      b := b + [((v >> 8) & 0xFF) as byte];
      b := b + [(v & 0xFF) as byte];
      buffer := b;
    }

    method WriteU64(v: bv64)
      modifies this
      ensures buffer == old(buffer) + Be64(v)
    {
      var b := buffer;
      b := b + [((v >> 56) & 0xFF) as byte];
      b := b + [((v >> 48) & 0xFF) as byte];
      b := b + [((v >> 40) & 0xFF) as byte];
      b := b + [((v >> 32) & 0xFF) as byte];
      b := b + [((v >> 24) & 0xFF) as byte];
      b := b + [((v >> 16) & 0xFF) as byte];
      b := b + [((v >> 8) & 0xFF) as byte];
      b := b + [(v & 0xFF) as byte];
      buffer := b;
    }

    method WriteBytes(bytes: seq<byte>)
      modifies this
      ensures buffer == old(buffer) + bytes
    {
      buffer := buffer + bytes;
    }

    /** Fails, writing nothing, on a string whose length does not fit 16 bits:
        the source throws there. */
    method WriteString(s: seq<byte>) returns (ok: bool)
      modifies this
      ensures ok <==> |s| < 0x1_0000
      ensures buffer == if |s| < 0x1_0000 then old(buffer) + PrefixedString(s) else old(buffer)
    {
      if |s| > 0xFFFF {
        return false;
      }
      WriteU16(WordOf(|s|));
      WriteBytes(s);
      ok := true;
    }
  }
}
