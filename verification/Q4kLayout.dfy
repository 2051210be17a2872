/**
 The Q4_K block layouts: eight blocks' quants interleaved eight bytes at a time, and their 6-bit
 sub-scales and sub-mins packed one sub-block of all eight rows at a time. Packing is a bijection.
 */
module Q4kLayout {
  import opened Wrappers

  type Byte = bv8

  /** A super-block of 256 weights: 8 sub-scales and 8 sub-mins in 12 bytes, 4-bit quants in 128. */
  datatype BlockQ4K = BlockQ4K(d: bv16, dmin: bv16, scales: seq<Byte>, qs: seq<Byte>)
  {
    predicate Valid() {
      |scales| == 12 && |qs| == 128
    }
  }

  /** Eight super-blocks interleaved. */
  datatype BlockQ4Kx8 = BlockQ4Kx8(d: seq<bv16>, dmin: seq<bv16>, scales: seq<Byte>, qs: seq<Byte>)
  {
    predicate Valid() {
      |d| == 8 && |dmin| == 8 && |scales| == 96 && |qs| == 1024
    }
  }

  predicate Eight(input: seq<BlockQ4K>) {
    |input| == 8 && forall r {:trigger input[r]} :: 0 <= r < 8 ==> input[r].Valid()
  }

  // ---------------------------------------------------------------- sub-scales of one block

  /** Sub-scale j, from the 12 scale bytes. */
  function ScaleOf(j: nat, scales: seq<Byte>): Byte
    requires j < 8 && |scales| == 12
  {
    if j < 4 then scales[j] & 0x3F else ((scales[j - 4] & 0xC0) >> 2) | (scales[j + 4] & 0x0F)
  }

  /** Sub-min j. */
  function MinOf(j: nat, scales: seq<Byte>): Byte
    requires j < 8 && |scales| == 12
  {
    if j < 4 then scales[j + 4] & 0x3F else ((scales[j] & 0xC0) >> 2) | ((scales[j + 4] & 0xF0) >> 4)
  }

  /** Six bits of one value, and above them the upper two of another. */
  function SixAndTwo(a: Byte, b: Byte): Byte {
    (a & 0x3F) | ((b >> 4) << 6)
  }

  /** The lower four bits of two values. */
  function FourAndFour(a: Byte, b: Byte): Byte {
    (a & 0x0F) | ((b & 0x0F) << 4)
  }

  /** The scale byte k of a block with the given sub-scales and sub-mins. */
  function StdByte(s: seq<Byte>, m: seq<Byte>, k: nat): Byte
    requires |s| == 8 && |m| == 8 && k < 12
  {
    if k < 4 then SixAndTwo(s[k], s[k + 4])
    else if k < 8 then SixAndTwo(m[k - 4], m[k])
    else FourAndFour(s[k - 4], m[k - 4])
  }

  ghost predicate SixBit(s: seq<Byte>) {
    |s| == 8 && forall j :: 0 <= j < 8 ==> s[j] & 0x3F == s[j]
  }

  lemma LowSix(x: Byte, a: Byte, b: Byte)
    requires a & 0x3F == a && x == SixAndTwo(a, b)
    ensures x & 0x3F == a
  {
  }

  /** The two halves of a six-bit value put together again. */
  lemma HighSixLow(x: Byte, y: Byte, a: Byte, b: Byte, c: Byte)
    requires b & 0x3F == b && x == SixAndTwo(a, b) && y == FourAndFour(b, c)
    ensures ((x & 0xC0) >> 2) | (y & 0x0F) == b
  {
  }

  lemma HighSixHigh(x: Byte, y: Byte, a: Byte, b: Byte, c: Byte)
    requires b & 0x3F == b && x == SixAndTwo(a, b) && y == FourAndFour(c, b)
    ensures ((x & 0xC0) >> 2) | ((y & 0xF0) >> 4) == b
  {
  }

  /** Bytes written by the encoding. */
  ghost predicate Encodes(scales: seq<Byte>, s: seq<Byte>, m: seq<Byte>) {
    |scales| == 12 && SixBit(s) && SixBit(m) && forall k :: 0 <= k < 12 ==> scales[k] == StdByte(s, m, k)
  }

  lemma StdScale(s: seq<Byte>, m: seq<Byte>, scales: seq<Byte>, j: nat)
    requires Encodes(scales, s, m) && j < 8
    ensures ScaleOf(j, scales) == s[j]
  {
    if j < 4 {
      LowSix(scales[j], s[j], s[j + 4]);
    } else {
      HighSixLow(scales[j - 4], scales[j + 4], s[j - 4], s[j], m[j]);
    }
  }

  lemma StdMin(s: seq<Byte>, m: seq<Byte>, scales: seq<Byte>, j: nat)
    requires Encodes(scales, s, m) && j < 8
    ensures MinOf(j, scales) == m[j]
  {
    if j < 4 {
      LowSix(scales[j + 4], m[j], m[j + 4]);
    } else {
      HighSixHigh(scales[j], scales[j + 4], m[j - 4], m[j], s[j]);
    }
  }

  /** Encoding then decoding gives the sub-scales and sub-mins back. */
  lemma StdDecodes(s: seq<Byte>, m: seq<Byte>, scales: seq<Byte>)
    requires Encodes(scales, s, m)
    ensures forall j :: 0 <= j < 8 ==> ScaleOf(j, scales) == s[j] && MinOf(j, scales) == m[j]
  {
    forall j | 0 <= j < 8 ensures ScaleOf(j, scales) == s[j] && MinOf(j, scales) == m[j] {
      StdScale(s, m, scales, j);
      StdMin(s, m, scales, j);
    }
  }

  lemma JoinSix(a: Byte, b: Byte)
    ensures ((a & 0x3F) & 0x3F) | (((((a & 0xC0) >> 2) | (b & 0x0F)) >> 4) << 6) == a
    ensures ((a & 0x3F) & 0x3F) | (((((a & 0xC0) >> 2) | ((b & 0xF0) >> 4)) >> 4) << 6) == a
  {
  }

  lemma JoinNibbles(a: Byte, b: Byte, c: Byte)
    ensures ((((a & 0xC0) >> 2) | (c & 0x0F)) & 0x0F) | (((((b & 0xC0) >> 2) | ((c & 0xF0) >> 4)) & 0x0F) << 4) == c
  {
  }

  /** Decoding then encoding gives the bytes back. */
  lemma StdEncodes(s: seq<Byte>, m: seq<Byte>, scales: seq<Byte>, k: nat)
    requires |s| == 8 && |m| == 8 && |scales| == 12 && k < 12
    requires forall j :: 0 <= j < 8 ==> s[j] == ScaleOf(j, scales) && m[j] == MinOf(j, scales)
    ensures StdByte(s, m, k) == scales[k]
  {
    if k < 4 {
      JoinSix(scales[k], scales[k + 8]);
    } else if k < 8 {
      JoinSix(scales[k], scales[k + 4]);
    } else {
      JoinNibbles(scales[k - 8], scales[k - 4], scales[k]);
    }
  }

  lemma DecodedSixBit(scales: seq<Byte>, j: nat)
    requires |scales| == 12 && j < 8
    ensures ScaleOf(j, scales) & 0x3F == ScaleOf(j, scales) && MinOf(j, scales) & 0x3F == MinOf(j, scales)
  {
  }

  // ---------------------------------------------------------------- eight blocks interleaved

  /** Sub-scale sb of each of the eight rows. */
  function ScalesAt(input: seq<BlockQ4K>, sb: nat): (s: seq<Byte>)
    requires Eight(input) && sb < 8
    ensures |s| == 8 && forall r :: 0 <= r < 8 ==> s[r] == ScaleOf(sb, input[r].scales)
  {
    seq(8, r requires 0 <= r < 8 => ScaleOf(sb, input[r].scales))
  }

  function MinsAt(input: seq<BlockQ4K>, sb: nat): (s: seq<Byte>)
    requires Eight(input) && sb < 8
    ensures |s| == 8 && forall r :: 0 <= r < 8 ==> s[r] == MinOf(sb, input[r].scales)
  {
    seq(8, r requires 0 <= r < 8 => MinOf(sb, input[r].scales))
  }

  /** Interleaved quant byte k: eight bytes of each block in turn. */
  function QsByte(input: seq<BlockQ4K>, k: nat): Byte
    requires Eight(input) && k < 1024
  {
    input[k / 8 % 8].qs[k / 64 * 8 + k % 8]
  }

  /** Interleaved scale byte k: sub-block k / 12 of all rows, encoded like one block's scales. */
  function PackedByte(input: seq<BlockQ4K>, k: nat): Byte
    requires Eight(input) && k < 96
  {
    StdByte(ScalesAt(input, k / 12), MinsAt(input, k / 12), k % 12)
  }

  /** What repacking must produce. */
  function Repacked(input: seq<BlockQ4K>): (out: BlockQ4Kx8)
    requires Eight(input)
    ensures out.Valid()
  {
    BlockQ4Kx8(seq(8, r requires 0 <= r < 8 => input[r].d), seq(8, r requires 0 <= r < 8 => input[r].dmin),
               seq(96, k requires 0 <= k < 96 => PackedByte(input, k)),
               seq(1024, k requires 0 <= k < 1024 => QsByte(input, k)))
  }

  /** The twelve interleaved scale bytes of sub-block sb. */
  function RowOf(rp: BlockQ4Kx8, sb: nat): (row: seq<Byte>)
    requires rp.Valid() && sb < 8
    ensures |row| == 12
  {
    rp.scales[12 * sb..12 * sb + 12]
  }

  /** The sub-scales of row r. */
  function RowScales(rp: BlockQ4Kx8, r: nat): (s: seq<Byte>)
    requires rp.Valid() && r < 8
    ensures |s| == 8 && forall sb :: 0 <= sb < 8 ==> s[sb] == ScaleOf(r, RowOf(rp, sb))
  {
    seq(8, sb requires 0 <= sb < 8 => ScaleOf(r, RowOf(rp, sb)))
  }

  function RowMins(rp: BlockQ4Kx8, r: nat): (s: seq<Byte>)
    requires rp.Valid() && r < 8
    ensures |s| == 8 && forall sb :: 0 <= sb < 8 ==> s[sb] == MinOf(r, RowOf(rp, sb))
  {
    seq(8, sb requires 0 <= sb < 8 => MinOf(r, RowOf(rp, sb)))
  }

  /** Row r taken out of the interleaved form. */
  function Extracted(rp: BlockQ4Kx8, r: nat): (b: BlockQ4K)
    requires rp.Valid() && r < 8
    ensures b.Valid()
  {
    BlockQ4K(rp.d[r], rp.dmin[r],
             seq(12, k requires 0 <= k < 12 => StdByte(RowScales(rp, r), RowMins(rp, r), k)),
             seq(128, p requires 0 <= p < 128 => rp.qs[(p / 8 * 8 + r) * 8 + p % 8]))
  }

  function Reversed(rp: BlockQ4Kx8): (out: seq<BlockQ4K>)
    requires rp.Valid()
    ensures Eight(out) && forall r :: 0 <= r < 8 ==> out[r] == Extracted(rp, r)
  {
    seq(8, r requires 0 <= r < 8 => Extracted(rp, r))
  }

  // ---------------------------------------------------------------- the bijection

  lemma AllSixBit(input: seq<BlockQ4K>, sb: nat)
    requires Eight(input) && sb < 8
    ensures SixBit(ScalesAt(input, sb)) && SixBit(MinsAt(input, sb))
  {
    forall r | 0 <= r < 8 ensures ScalesAt(input, sb)[r] & 0x3F == ScalesAt(input, sb)[r] {
      DecodedSixBit(input[r].scales, sb);
    }
    forall r | 0 <= r < 8 ensures MinsAt(input, sb)[r] & 0x3F == MinsAt(input, sb)[r] {
      DecodedSixBit(input[r].scales, sb);
    }
  }

  lemma RowSixBit(rp: BlockQ4Kx8, r: nat)
    requires rp.Valid() && r < 8
    ensures SixBit(RowScales(rp, r)) && SixBit(RowMins(rp, r))
  {
    forall sb | 0 <= sb < 8 ensures RowScales(rp, r)[sb] & 0x3F == RowScales(rp, r)[sb] {
      DecodedSixBit(RowOf(rp, sb), r);
    }
    forall sb | 0 <= sb < 8 ensures RowMins(rp, r)[sb] & 0x3F == RowMins(rp, r)[sb] {
      DecodedSixBit(RowOf(rp, sb), r);
    }
  }

  /** Decoding the interleaved scales of a repacked group gives each block's own. */
  lemma RepackedScales(input: seq<BlockQ4K>, r: nat)
    requires Eight(input) && r < 8
    ensures forall sb :: 0 <= sb < 8 ==>
        && RowScales(Repacked(input), r)[sb] == ScaleOf(sb, input[r].scales)
        && RowMins(Repacked(input), r)[sb] == MinOf(sb, input[r].scales)
  {
    forall sb | 0 <= sb < 8
      ensures RowScales(Repacked(input), r)[sb] == ScaleOf(sb, input[r].scales)
      ensures RowMins(Repacked(input), r)[sb] == MinOf(sb, input[r].scales)
    {
      AllSixBit(input, sb);
      var row := RowOf(Repacked(input), sb);
      forall k | 0 <= k < 12 ensures row[k] == StdByte(ScalesAt(input, sb), MinsAt(input, sb), k) {
        DivMod(sb, k);
      }
      StdDecodes(ScalesAt(input, sb), MinsAt(input, sb), row);
    }
  }

  lemma DivMod(sb: nat, k: nat)
    requires k < 12
    ensures (12 * sb + k) / 12 == sb && (12 * sb + k) % 12 == k
  {
  }

  lemma QsIndex(p: nat, r: nat)
    requires p < 128 && r < 8
    ensures var k := (p / 8 * 8 + r) * 8 + p % 8;
            k < 1024 && k / 8 % 8 == r && k / 64 * 8 + k % 8 == p
  {
  }

  /** Reversing a repacked group gives the blocks back. */
  lemma ReverseOfRepack(input: seq<BlockQ4K>)
    requires Eight(input)
    ensures Reversed(Repacked(input)) == input
  {
    var rp := Repacked(input);
    forall r | 0 <= r < 8 ensures Extracted(rp, r) == input[r] {
      RepackedScales(input, r);
      var b := Extracted(rp, r);
      forall k | 0 <= k < 12 ensures b.scales[k] == input[r].scales[k] {
        StdEncodes(RowScales(rp, r), RowMins(rp, r), input[r].scales, k);
      }
      forall p | 0 <= p < 128 ensures b.qs[p] == input[r].qs[p] {
        QsIndex(p, r);
      }
    }
  }

  lemma QsBack(k: nat)
    requires k < 1024
    ensures var p, r := k / 64 * 8 + k % 8, k / 8 % 8;
            p < 128 && r < 8 && (p / 8 * 8 + r) * 8 + p % 8 == k
  {
    var q, t := k / 64, k % 8;
    assert (q * 8 + t) / 8 == q && (q * 8 + t) % 8 == t;
    assert k == (k / 8) * 8 + t && k / 8 == q * 8 + k / 8 % 8 by { EightEights(k); }
  }

  lemma EightEights(k: nat)
    ensures k / 8 == k / 64 * 8 + k / 8 % 8
  {
    assert k / 64 == k / 8 / 8;
  }

  /** Repacking an extracted group gives the interleaved form back, for every interleaved form. */
  lemma RepackOfReverse(rp: BlockQ4Kx8)
    requires rp.Valid()
    ensures Repacked(Reversed(rp)) == rp
  {
    var blocks, out := Reversed(rp), Repacked(Reversed(rp));
    forall k | 0 <= k < 96 ensures out.scales[k] == rp.scales[k] {
      ScaleBack(rp, k);
    }
    forall k | 0 <= k < 1024 ensures out.qs[k] == rp.qs[k] {
      QsBack(k);
    }
    assert out.d == rp.d && out.dmin == rp.dmin;
  }

  lemma ScaleBack(rp: BlockQ4Kx8, k: nat)
    requires rp.Valid() && k < 96
    ensures PackedByte(Reversed(rp), k) == rp.scales[k]
  {
    var sb := k / 12;
    var row := RowOf(rp, sb);
    var blocks := Reversed(rp);
    forall r | 0 <= r < 8 ensures ScalesAt(blocks, sb)[r] == ScaleOf(r, row) && MinsAt(blocks, sb)[r] == MinOf(r, row) {
      RowSixBit(rp, r);
      StdDecodes(RowScales(rp, r), RowMins(rp, r), blocks[r].scales);
    }
    StdEncodes(ScalesAt(blocks, sb), MinsAt(blocks, sb), row, k % 12);
  }
}
