/** Word-at-a-time unpacking of the 6-bit sub-scales and sub-mins. */
module Q4kScales {
  import opened Wrappers
  import opened Q4kLayout
  import opened Q4kRepack

  // ---------------------------------------------------------------- scale words

  function Le(b0: Byte, b1: Byte, b2: Byte, b3: Byte): bv32 {
    (b0 as bv32) | ((b1 as bv32) << 8) | ((b2 as bv32) << 16) | ((b3 as bv32) << 24)
  }

  function FromLe(b: seq<Byte>, at: nat): bv32
    requires at + 4 <= |b|
  {
    Le(b[at], b[at + 1], b[at + 2], b[at + 3])
  }

  /** Byte k of a little-endian word. */
  function ByteOf(w: bv32, k: nat): Byte
    requires k < 4
  {
    if k == 0 then (w & 0xff) as Byte
    else if k == 1 then ((w >> 8) & 0xff) as Byte
    else if k == 2 then ((w >> 16) & 0xff) as Byte
    else ((w >> 24) & 0xff) as Byte
  }

  /** The low six bits of every byte. */
  function LowSixes(w: bv32): bv32 {
    w & 0x3f3f3f3f
  }

  function Shifted(w: bv32): bv32 {
    w >> 4
  }

  /** Low nibbles of one word under the upper two bits of another. */
  function NibbleAndTwo(lo: bv32, hi: bv32): bv32 {
    (lo & 0x0f0f0f0f) | (((hi >> 6) & 0x03030303) << 4)
  }

  /** The four bytes of a word. Folded. */
  ghost predicate Bytes(w: bv32, b0: Byte, b1: Byte, b2: Byte, b3: Byte) {
    forall n :: Unfold(n) ==> ByteOf(w, 0) == b0 && ByteOf(w, 1) == b1 && ByteOf(w, 2) == b2 && ByteOf(w, 3) == b3
  }

  lemma MaskedByte(b0: Byte, b1: Byte, b2: Byte, b3: Byte)
    ensures ByteOf(LowSixes(Le(b0, b1, b2, b3)), 0) == b0 & 0x3F
    ensures ByteOf(LowSixes(Le(b0, b1, b2, b3)), 1) == b1 & 0x3F
    ensures ByteOf(LowSixes(Le(b0, b1, b2, b3)), 2) == b2 & 0x3F
    ensures ByteOf(LowSixes(Le(b0, b1, b2, b3)), 3) == b3 & 0x3F
  {
  }

  lemma MaskedWord(b0: Byte, b1: Byte, b2: Byte, b3: Byte)
    ensures Bytes(LowSixes(Le(b0, b1, b2, b3)), b0 & 0x3F, b1 & 0x3F, b2 & 0x3F, b3 & 0x3F)
  {
    MaskedByte(b0, b1, b2, b3);
  }

  function SixLow(hi: Byte, lo: Byte): Byte {
    ((hi & 0xC0) >> 2) | (lo & 0x0F)
  }

  function SixHigh(hi: Byte, lo: Byte): Byte {
    ((hi & 0xC0) >> 2) | ((lo & 0xF0) >> 4)
  }

  lemma LowNibbleWord(a0: Byte, a1: Byte, a2: Byte, a3: Byte, b0: Byte, b1: Byte, b2: Byte, b3: Byte)
    ensures Bytes(NibbleAndTwo(Le(a0, a1, a2, a3), Le(b0, b1, b2, b3)), SixLow(b0, a0), SixLow(b1, a1), SixLow(b2, a2), SixLow(b3, a3))
  {
  }

  lemma HighNibbleWord(a0: Byte, a1: Byte, a2: Byte, a3: Byte, b0: Byte, b1: Byte, b2: Byte, b3: Byte)
    ensures Bytes(NibbleAndTwo(Shifted(Le(a0, a1, a2, a3)), Le(b0, b1, b2, b3)), SixHigh(b0, a0), SixHigh(b1, a1), SixHigh(b2, a2), SixHigh(b3, a3))
  {
  }

  /** Word-at-a-time unpacking, as a value. */
  function Unpacked(scales: seq<Byte>): (utmp: seq<bv32>)
    requires |scales| == 12
    ensures |utmp| == 4
  {
    var w0, w1, w2 := FromLe(scales, 0), FromLe(scales, 4), FromLe(scales, 8);
    [LowSixes(w0), NibbleAndTwo(w2, w0), LowSixes(w1), NibbleAndTwo(Shifted(w2), w1)]
  }

  /** Unpacks the twelve scale bytes a word at a time, in place. */
  method UnpackScales(scales: seq<Byte>) returns (utmp: array<bv32>)
    requires |scales| == 12
    ensures fresh(utmp) && utmp[..] == Unpacked(scales)
  {
    utmp := new bv32[4];
    utmp[0], utmp[1], utmp[2] := FromLe(scales, 0), FromLe(scales, 4), FromLe(scales, 8);
    utmp[3] := NibbleAndTwo(Shifted(utmp[2]), utmp[1]);
    var uaux := LowSixes(utmp[1]);
    utmp[1] := NibbleAndTwo(utmp[2], utmp[0]);
    utmp[2] := uaux;
    utmp[0] := LowSixes(utmp[0]);
  }

  lemma PickByte(w: bv32, b: seq<Byte>, k: nat)
    requires |b| == 4 && k < 4 && Bytes(w, b[0], b[1], b[2], b[3])
    ensures ByteOf(w, k) == b[k]
  {
    assert Unfold(0);
  }

  lemma LowScaleWord(scales: seq<Byte>)
    requires |scales| == 12
    ensures Bytes(LowSixes(FromLe(scales, 0)), ScaleOf(0, scales), ScaleOf(1, scales), ScaleOf(2, scales), ScaleOf(3, scales))
  {
    MaskedWord(scales[0], scales[1], scales[2], scales[3]);
  }

  lemma LowMinWord(scales: seq<Byte>)
    requires |scales| == 12
    ensures Bytes(LowSixes(FromLe(scales, 4)), MinOf(0, scales), MinOf(1, scales), MinOf(2, scales), MinOf(3, scales))
  {
    MaskedWord(scales[4], scales[5], scales[6], scales[7]);
  }

  lemma HighScaleWord(scales: seq<Byte>)
    requires |scales| == 12
    ensures Bytes(NibbleAndTwo(FromLe(scales, 8), FromLe(scales, 0)),
                  ScaleOf(4, scales), ScaleOf(5, scales), ScaleOf(6, scales), ScaleOf(7, scales))
  {
    LowNibbleWord(scales[8], scales[9], scales[10], scales[11], scales[0], scales[1], scales[2], scales[3]);
  }

  lemma HighMinWord(scales: seq<Byte>)
    requires |scales| == 12
    ensures Bytes(NibbleAndTwo(Shifted(FromLe(scales, 8)), FromLe(scales, 4)),
                  MinOf(4, scales), MinOf(5, scales), MinOf(6, scales), MinOf(7, scales))
  {
    HighNibbleWord(scales[8], scales[9], scales[10], scales[11], scales[4], scales[5], scales[6], scales[7]);
  }

  /** Unpacked byte j of the sub-scales is what decoding them one by one gives. */
  lemma UnpackedScale(scales: seq<Byte>, j: nat)
    requires |scales| == 12 && j < 8
    ensures ByteOf(Unpacked(scales)[j / 4], j % 4) == ScaleOf(j, scales)
  {
    if j < 4 {
      LowScaleWord(scales);
      PickByte(LowSixes(FromLe(scales, 0)), [ScaleOf(0, scales), ScaleOf(1, scales), ScaleOf(2, scales), ScaleOf(3, scales)], j);
    } else {
      HighScaleWord(scales);
      PickByte(NibbleAndTwo(FromLe(scales, 8), FromLe(scales, 0)),
               [ScaleOf(4, scales), ScaleOf(5, scales), ScaleOf(6, scales), ScaleOf(7, scales)], j - 4);
    }
  }

  /** And the sub-mins follow in the other two words. */
  lemma UnpackedMin(scales: seq<Byte>, j: nat)
    requires |scales| == 12 && j < 8
    ensures ByteOf(Unpacked(scales)[2 + j / 4], j % 4) == MinOf(j, scales)
  {
    if j < 4 {
      LowMinWord(scales);
      PickByte(LowSixes(FromLe(scales, 4)), [MinOf(0, scales), MinOf(1, scales), MinOf(2, scales), MinOf(3, scales)], j);
    } else {
      HighMinWord(scales);
      PickByte(NibbleAndTwo(Shifted(FromLe(scales, 8)), FromLe(scales, 4)),
               [MinOf(4, scales), MinOf(5, scales), MinOf(6, scales), MinOf(7, scales)], j - 4);
    }
  }
}
