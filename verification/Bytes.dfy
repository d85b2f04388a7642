/** Packet bytes, big-endian fields, and the two TOS bits the cache reserves. */
module Bytes {
  import Bits

  type byte = b: int | 0 <= b < 256

  type Frame = seq<byte>

  const TWO_TO_THE_16 := 0x1_0000
  const TWO_TO_THE_32 := 0x1_0000_0000

  /** The big-endian 16-bit field at offset `i`. */
  function U16(s: Frame, i: nat): (v: nat)
    requires i + 2 <= |s|
    ensures v < TWO_TO_THE_16
  {
    s[i] as int * 256 + s[i + 1] as int
  }

  /** The big-endian 32-bit field at offset `i`. */
  function U32(s: Frame, i: nat): (v: nat)
    requires i + 4 <= |s|
    ensures v < TWO_TO_THE_32
  {
    s[i] as int * 0x100_0000 + s[i + 1] as int * 0x1_0000 + s[i + 2] as int * 256 + s[i + 3] as int
  }

  /** A field stands for its bytes. */
  lemma U16Bytes(s: Frame, t: Frame, i: nat)
    requires i + 2 <= |s| && i + 2 <= |t|
    ensures U16(s, i) == U16(t, i) <==> s[i..i + 2] == t[i..i + 2]
  {
    if U16(s, i) == U16(t, i) {
      assert s[i..i + 2] == [s[i], s[i + 1]] && t[i..i + 2] == [t[i], t[i + 1]];
    } else {
      assert s[i] == s[i..i + 2][0] && s[i + 1] == s[i..i + 2][1];
      assert t[i] == t[i..i + 2][0] && t[i + 1] == t[i..i + 2][1];
    }
  }

  lemma U32Bytes(s: Frame, t: Frame, i: nat)
    requires i + 4 <= |s| && i + 4 <= |t|
    ensures U32(s, i) == U32(t, i) <==> s[i..i + 4] == t[i..i + 4]
  {
    U16Bytes(s, t, i);
    U16Bytes(s, t, i + 2);
    assert U32(s, i) == U16(s, i) * 0x1_0000 + U16(s, i + 2);
    assert U32(t, i) == U16(t, i) * 0x1_0000 + U16(t, i + 2);
    assert s[i..i + 4] == s[i..i + 2] + s[i + 2..i + 4] && t[i..i + 4] == t[i..i + 2] + t[i + 2..i + 4];
  }

  /** The two bytes of `v` in network order. */
  function Put16(v: nat): (s: Frame)
    requires v < TWO_TO_THE_16
    ensures |s| == 2 && U16(s, 0) == v
  {
    [v / 256, v % 256]
  }

  /** `s` with `d` stored at offset `off`; nothing is inserted or removed. */
  function Write(s: Frame, off: nat, d: Frame): (r: Frame)
    requires off + |d| <= |s|
    ensures |r| == |s|
    ensures forall k :: 0 <= k < |s| ==> r[k] == if off <= k < off + |d| then d[k - off] else s[k]
  {
    s[..off] + d + s[off + |d|..]
  }

  // The cache reserves bits 0x04 (miss) and 0x08 (established) of the TOS byte.

  /** Both reserved bits are set. */
  predicate BothMarks(tos: byte) {
    tos / 4 % 4 == 3
  }

  /** Set the miss bit. */
  function MarkMiss(tos: byte): byte {
    if tos / 4 % 2 == 0 then tos + 4 else tos
  }

  /** Clear both reserved bits. */
  function ClearMarks(tos: byte): byte {
    tos - 4 * (tos / 4 % 4)
  }

  /** Two TOS bytes that differ at most in the two reserved bits. */
  predicate SameUpToMarks(a: byte, b: byte) {
    a / 16 == b / 16 && a % 4 == b % 4
  }

  /** Setting and clearing marks touches nothing but the marks. */
  lemma MarksOnly(b: byte)
    ensures SameUpToMarks(MarkMiss(b), b)
    ensures SameUpToMarks(ClearMarks(b), b)
  {
    var hi, marks, lo := b / 16, b / 4 % 4, b % 4;
    assert b as int == 16 * hi + 4 * marks + lo;
    assert ClearMarks(b) as int == 16 * hi + lo;
  }

  // The arithmetic definitions above are the C bit operations on every byte.

  lemma BothMarksIsMask(x: bv8)
    ensures BothMarks(x as byte) <==> x & 0x0c == 0x0c
  {
  }

  lemma MarkMissIsOr(x: bv8)
    ensures MarkMiss(x as byte) == (x | 0x04) as int
  {
  }

  lemma ClearMarksIsAnd(x: bv8)
    ensures ClearMarks(x as byte) == (x & 0xf3) as int
  {
    MarksValue(x);
    WithoutMarks(x);
  }

  /** The same on the bytes of a frame. */
  lemma MarkedByte(b: byte)
    ensures MarkMiss(b) as int == (Bits.Of(b) | 0x04) as int
  {
    MarkMissIsOr(Bits.Of(b));
  }

  lemma ClearedByte(b: byte)
    ensures ClearMarks(b) as int == (Bits.Of(b) & 0xf3) as int
  {
    ClearMarksIsAnd(Bits.Of(b));
  }

  lemma MarkedBoth(b: byte)
    ensures BothMarks(b) <==> Bits.Of(b) & 0x0c == 0x0c
  {
    BothMarksIsMask(Bits.Of(b));
  }

  lemma MarksValue(x: bv8)
    ensures (x & 0x0c) as int == 4 * (x as int / 4 % 4)
  {
  }

  lemma WithoutMarks(x: bv8)
    ensures (x & 0xf3) as int == x as int - (x & 0x0c) as int
  {
    assert x & 0x0c <= x;
    assert x & 0xf3 == x - (x & 0x0c);
  }
}
