/**
 The 256-bit vector kernel for eight interleaved rows: which byte every shuffle, blend and
 multiply-add touches, in saturating and wrapping lane arithmetic, against the scalar kernel.
 */
module Q4kAvx2 {
  import opened Wrappers
  import opened Q4kLayout
  import opened Q4kRepack
  import opened Q4kScales
  import opened Q4kMath
  import opened Q4kKernel

  // ---------------------------------------------------------------- lane operations

  /** Two-bit field i of a shuffle's control byte. */
  function Field(imm: nat, i: nat): (f: nat)
    requires i < 4
    ensures f < 4
  {
    if i == 0 then imm % 4 else if i == 1 then imm / 4 % 4 else if i == 2 then imm / 16 % 4 else imm / 64 % 4
  }

  /** Bit j of a blend's control byte. */
  function Bit(imm: nat, j: nat): nat
    requires j < 8
  {
    if j == 0 then imm % 2 else Bit(imm / 2, j - 1)
  }

  /** Within each half, four-byte group i becomes the group that field i names. */
  function ShuffleGroups(imm: nat, v: seq<int>): (r: seq<int>)
    requires |v| == 32
    ensures |r| == 32
    ensures forall k :: 0 <= k < 32 ==> r[k] == v[16 * (k / 16) + 4 * Field(imm, k / 4 % 4) + k % 4]
  {
    seq(32, k requires 0 <= k < 32 => v[16 * (k / 16) + 4 * Field(imm, k / 4 % 4) + k % 4])
  }

  /** Four-byte group j from the second vector where bit j is set. */
  function BlendGroups(imm: nat, a: seq<int>, b: seq<int>): (r: seq<int>)
    requires |a| == |b| == 32
    ensures |r| == 32
    ensures forall k :: 0 <= k < 32 ==> r[k] == if Bit(imm, k / 4) == 1 then b[k] else a[k]
  {
    seq(32, k requires 0 <= k < 32 => if Bit(imm, k / 4) == 1 then b[k] else a[k])
  }

  /** Products of unsigned and signed bytes, added in pairs with saturation. */
  function MaddBytes(a: seq<int>, b: seq<int>): (r: seq<int>)
    requires |a| == |b| == 32
    ensures |r| == 16
    ensures forall i :: 0 <= i < 16 ==> r[i] == Saturate16(a[2 * i] * b[2 * i] + a[2 * i + 1] * b[2 * i + 1])
  {
    seq(16, i requires 0 <= i < 16 => Saturate16(a[2 * i] * b[2 * i] + a[2 * i + 1] * b[2 * i + 1]))
  }

  function AddWords(a: seq<int>, b: seq<int>): (r: seq<int>)
    requires |a| == |b| == 16
    ensures |r| == 16 && forall i :: 0 <= i < 16 ==> r[i] == Wrap16(a[i] + b[i])
  {
    seq(16, i requires 0 <= i < 16 => Wrap16(a[i] + b[i]))
  }

  /** Products of words, added in pairs in 32 bits. */
  function MaddWords(a: seq<int>, b: seq<int>): (r: seq<int>)
    requires |a| == |b| == 16
    ensures |r| == 8
    ensures forall j :: 0 <= j < 8 ==> r[j] == Wrap32(a[2 * j] * b[2 * j] + a[2 * j + 1] * b[2 * j + 1])
  {
    seq(8, j requires 0 <= j < 8 => Wrap32(a[2 * j] * b[2 * j] + a[2 * j + 1] * b[2 * j + 1]))
  }

  function AddInts(a: seq<int>, b: seq<int>): (r: seq<int>)
    requires |a| == |b| == 8
    ensures |r| == 8 && forall j :: 0 <= j < 8 ==> r[j] == Wrap32(a[j] + b[j])
  {
    seq(8, j requires 0 <= j < 8 => Wrap32(a[j] + b[j]))
  }

  /** Word pair 0 of each half, everywhere in that half. */
  function FirstPairs(q: seq<int>): (r: seq<int>)
    requires |q| == 16
    ensures |r| == 16 && forall k :: 0 <= k < 16 ==> r[k] == q[8 * (k / 8) + k % 2]
  {
    seq(16, k requires 0 <= k < 16 => q[8 * (k / 8) + k % 2])
  }

  /** Each half moved down by one word pair. */
  function DropPair(q: seq<int>): (r: seq<int>)
    requires |q| == 16
    ensures |r| == 16 && forall k :: 0 <= k < 16 ==> r[k] == if k % 8 < 6 then q[k + 2] else 0
  {
    seq(16, k requires 0 <= k < 16 => if k % 8 < 6 then q[k + 2] else 0)
  }

  // ---------------------------------------------------------------- nibbles

  function LowNibbles(raw: seq<Byte>): (v: seq<int>)
    requires |raw| == 32
    ensures |v| == 32 && forall k :: 0 <= k < 32 ==> v[k] == Low(raw[k])
  {
    seq(32, k requires 0 <= k < 32 => Low(raw[k]))
  }

  function Word(lo: Byte, hi: Byte): bv16 {
    (lo as bv16) | ((hi as bv16) << 8)
  }

  /** Shifting a 16-bit lane right and masking its bytes. */
  function ShiftMask(w: bv16): bv16 {
    (w >> 4) & 0x0F0F
  }

  function LowByte(w: bv16): Byte {
    (w & 0xFF) as Byte
  }

  function HighByte(w: bv16): Byte {
    (w >> 8) as Byte
  }

  /** The mask takes out the bits that the lane's shift carried over from the neighbouring byte. */
  lemma ShiftMaskBytes(lo: Byte, hi: Byte)
    ensures LowByte(ShiftMask(Word(lo, hi))) == lo >> 4
    ensures HighByte(ShiftMask(Word(lo, hi))) == hi >> 4
  {
  }

  lemma SmallByte(b: Byte)
    ensures (b >> 4) as int == High(b)
  {
  }

  /** Byte k of the lanes shifted and masked. */
  function ShiftedByte(raw: seq<Byte>, k: nat): Byte
    requires |raw| == 32 && k < 32
  {
    if k % 2 == 0 then LowByte(ShiftMask(Word(raw[k], raw[k + 1]))) else HighByte(ShiftMask(Word(raw[k - 1], raw[k])))
  }

  function HighNibbles(raw: seq<Byte>): (v: seq<int>)
    requires |raw| == 32
    ensures |v| == 32
  {
    seq(32, k requires 0 <= k < 32 => ShiftedByte(raw, k) as int)
  }

  lemma HighNibblesAt(raw: seq<Byte>, k: nat)
    requires |raw| == 32 && k < 32
    ensures HighNibbles(raw)[k] == High(raw[k])
  {
    if k % 2 == 0 {
      ShiftMaskBytes(raw[k], raw[k + 1]);
    } else {
      ShiftMaskBytes(raw[k - 1], raw[k]);
    }
    SmallByte(raw[k]);
  }

  function Nibbles(raw: seq<Byte>, high: bool): (v: seq<int>)
    requires |raw| == 32
    ensures |v| == 32
  {
    if high then HighNibbles(raw) else LowNibbles(raw)
  }

  // ---------------------------------------------------------------- rows in lanes

  /** The row that 32-bit lane j works on. */
  function LaneRow(j: nat): (r: nat)
    requires j < 8
    ensures r < 8
  {
    [0, 4, 1, 5, 2, 6, 3, 7][j]
  }

  /** First four bytes of every row, in lane order. */
  function FirstFours(rows03: seq<int>, rows47: seq<int>): (v: seq<int>)
    requires |rows03| == |rows47| == 32
    ensures |v| == 32
  {
    BlendGroups(170, rows03, ShuffleGroups(177, rows47))
  }

  function LastFours(rows03: seq<int>, rows47: seq<int>): (v: seq<int>)
    requires |rows03| == |rows47| == 32
    ensures |v| == 32
  {
    BlendGroups(170, ShuffleGroups(177, rows03), rows47)
  }

  /** Byte i of row r of a chunk: eight bytes of each row, four rows to a vector. */
  function ChunkByte(rows03: seq<int>, rows47: seq<int>, r: nat, i: nat): int
    requires |rows03| == |rows47| == 32 && r < 8 && i < 8
  {
    if r < 4 then rows03[8 * r + i] else rows47[8 * (r - 4) + i]
  }

  lemma Controls()
    ensures Field(177, 0) == 1 && Field(177, 1) == 0 && Field(177, 2) == 3 && Field(177, 3) == 2
    ensures forall j :: 0 <= j < 8 ==> (Bit(170, j) == 1 <==> j % 2 == 1)
  {
    assert Bit(170, 0) == 0 && Bit(170, 1) == 1 && Bit(170, 2) == 0 && Bit(170, 3) == 1;
    assert Bit(170, 4) == 0 && Bit(170, 5) == 1 && Bit(170, 6) == 0 && Bit(170, 7) == 1;
  }

  lemma FirstFoursAt(rows03: seq<int>, rows47: seq<int>, j: nat, b: nat)
    requires |rows03| == |rows47| == 32 && j < 8 && b < 4
    ensures FirstFours(rows03, rows47)[4 * j + b] == ChunkByte(rows03, rows47, LaneRow(j), b)
  {
    Controls();
    var k := 4 * j + b;
    assert k / 4 == j && k % 4 == b;
  }

  lemma LastFoursAt(rows03: seq<int>, rows47: seq<int>, j: nat, b: nat)
    requires |rows03| == |rows47| == 32 && j < 8 && b < 4
    ensures LastFours(rows03, rows47)[4 * j + b] == ChunkByte(rows03, rows47, LaneRow(j), 4 + b)
  {
    Controls();
    var k := 4 * j + b;
    assert k / 4 == j && k % 4 == b;
  }

  /** Four activation bytes, group d of sixteen, in every lane. */
  function Spread(a: seq<int>, d: nat): (v: seq<int>)
    requires |a| == 16 && d < 4
    ensures |v| == 32
  {
    ShuffleGroups(85 * d, a + a)
  }

  lemma SpreadAt(a: seq<int>, d: nat, j: nat, b: nat)
    requires |a| == 16 && d < 4 && j < 8 && b < 4
    ensures Spread(a, d)[4 * j + b] == a[4 * d + b]
  {
    var k := 4 * j + b;
    assert k / 4 == j && k % 4 == b;
    assert forall i :: 0 <= i < 4 ==> Field(85 * d, i) == d;
  }

  // ---------------------------------------------------------------- one sub-block of eight rows

  /** Row r's numbers. */
  ghost function Row(h: Half, w: BlockQ4Kx8, r: nat): (e: Decoded)
    requires w.Valid() && r < 8
    ensures e.Valid()
  {
    DecodedValid(h, Extracted(w, r));
    DecodedOf(h, Extracted(w, r))
  }

  /** The 32 bytes at `at`. */
  function Load(qs: seq<Byte>, at: nat): (raw: seq<Byte>)
    requires at + 32 <= |qs|
    ensures |raw| == 32 && forall k :: 0 <= k < 32 ==> raw[k] == qs[at + k]
  {
    qs[at..at + 32]
  }

  function NibbleOf(b: Byte, high: bool): int {
    if high then High(b) else Low(b)
  }

  lemma NibblesAt(raw: seq<Byte>, high: bool, k: nat)
    requires |raw| == 32 && k < 32
    ensures Nibbles(raw, high)[k] == NibbleOf(raw[k], high)
  {
    HighNibblesAt(raw, k);
  }

  lemma ChunkByteIs(qs: seq<Byte>, at: nat, high: bool, r: nat, i: nat)
    requires at + 64 <= |qs| && r < 8 && i < 8
    ensures ChunkByte(Nibbles(Load(qs, at), high), Nibbles(Load(qs, at + 32), high), r, i) == NibbleOf(qs[at + 8 * r + i], high)
  {
    hide Nibbles, Load, NibbleOf;
    if r < 4 {
      NibblesAt(Load(qs, at), high, 8 * r + i);
    } else {
      NibblesAt(Load(qs, at + 32), high, 8 * (r - 4) + i);
    }
  }

  lemma RowIndex(sb: nat, t: nat, r: nat, i: nat)
    requires sb < 4 && t < 4 && r < 8 && i < 8
    ensures var p := sb * 32 + (8 * t + i);
            p < 128 && (p / 8 * 8 + r) * 8 + p % 8 == 256 * sb + 64 * t + 8 * r + i < 1024
  {
    var p := sb * 32 + (8 * t + i);
    assert p / 8 == 4 * sb + t && p % 8 == i;
  }

  /** Quant k of a sub-block. */
  ghost function QuantIn(e: Decoded, sub: nat, k: nat): int
    requires e.Valid() && sub < 8 && k < 32
  {
    e.quants[32 * sub + k]
  }

  ghost function ActIn(y: BlockQ8K, sub: nat, k: nat): int
    requires |y.qs| == 256 && sub < 8 && k < 32
  {
    y.qs[32 * sub + k]
  }

  lemma ExtractedByte(w: BlockQ4Kx8, r: nat, p: nat)
    requires w.Valid() && r < 8 && p < 128
    ensures (p / 8 * 8 + r) * 8 + p % 8 < 1024
    ensures Extracted(w, r).qs[p] == w.qs[(p / 8 * 8 + r) * 8 + p % 8]
  {
  }

  lemma RowQuantIs(h: Half, w: BlockQ4Kx8, r: nat, sub: nat, t: nat, i: nat)
    requires w.Valid() && r < 8 && sub < 8 && t < 4 && i < 8
    ensures 256 * (sub / 2) + 64 * t + 8 * r + i < 1024
    ensures QuantIn(Row(h, w, r), sub, 8 * t + i) == NibbleOf(w.qs[256 * (sub / 2) + 64 * t + 8 * r + i], sub % 2 == 1)
  {
    hide Extracted, DecodedOf;
    DecodedAt(h, Extracted(w, r), sub, 8 * t + i);
    RowIndex(sub / 2, t, r, i);
    ExtractedByte(w, r, sub / 2 * 32 + (8 * t + i));
  }

  /** Chunk t of a sub-block: rows 0 to 3 in one vector, 4 to 7 in the next. */
  lemma ChunkIsRow(h: Half, w: BlockQ4Kx8, sub: nat, t: nat, r: nat, i: nat)
    requires w.Valid() && sub < 8 && t < 4 && r < 8 && i < 8
    ensures var at := 256 * (sub / 2) + 64 * t;
            at + 64 <= |w.qs|
            && ChunkByte(Nibbles(Load(w.qs, at), sub % 2 == 1), Nibbles(Load(w.qs, at + 32), sub % 2 == 1), r, i)
               == QuantIn(Row(h, w, r), sub, 8 * t + i)
  {
    hide Nibbles, Load, NibbleOf, ChunkByte, Row, QuantIn;
    RowQuantIs(h, w, r, sub, t, i);
    ChunkByteIs(w.qs, 256 * (sub / 2) + 64 * t, sub % 2 == 1, r, i);
  }

  /** The quants that 16-bit lane g of a pair multiplies, in order. */
  ghost function LaneQuants(e: Decoded, sub: nat, g: nat): (q: seq<int>)
    requires e.Valid() && sub < 8 && g < 2
    ensures |q| == 16
  {
    seq(16, i requires 0 <= i < 16 => QuantIn(e, sub, 4 * (i / 2) + 2 * g + i % 2))
  }

  ghost function LaneActs(y: BlockQ8K, sub: nat, g: nat): (q: seq<int>)
    requires |y.qs| == 256 && sub < 8 && g < 2
    ensures |q| == 16
  {
    seq(16, i requires 0 <= i < 16 => ActIn(y, sub, 4 * (i / 2) + 2 * g + i % 2))
  }

  lemma LaneAt(e: Decoded, y: BlockQ8K, sub: nat, g: nat, c: nat)
    requires e.Valid() && |y.qs| == 256 && sub < 8 && g < 2 && c < 8
    ensures LaneQuants(e, sub, g)[2 * c] == QuantIn(e, sub, 4 * c + 2 * g) && LaneQuants(e, sub, g)[2 * c + 1] == QuantIn(e, sub, 4 * c + 2 * g + 1)
    ensures LaneActs(y, sub, g)[2 * c] == ActIn(y, sub, 4 * c + 2 * g) && LaneActs(y, sub, g)[2 * c + 1] == ActIn(y, sub, 4 * c + 2 * g + 1)
  {
    hide QuantIn, ActIn;
    assert (2 * c) / 2 == c && (2 * c) % 2 == 0 && (2 * c + 1) / 2 == c && (2 * c + 1) % 2 == 1;
  }

  /** Lane i of the 16-bit accumulator after n multiply-adds. */
  ghost function LaneAfter(e: Decoded, y: BlockQ8K, sub: nat, g: nat, n: nat): int
    requires e.Valid() && |y.qs| == 256 && sub < 8 && g < 2 && n <= 8
  {
    LaneAcc(LaneQuants(e, sub, g), LaneActs(y, sub, g), n)
  }

  lemma LaneAfterNext(e: Decoded, y: BlockQ8K, sub: nat, g: nat, c: nat)
    requires e.Valid() && |y.qs| == 256 && sub < 8 && g < 2 && c < 8
    ensures var k := 4 * c + 2 * g;
            LaneAfter(e, y, sub, g, c + 1)
            == Wrap16(LaneAfter(e, y, sub, g, c)
                      + Saturate16(QuantIn(e, sub, k) * ActIn(y, sub, k) + QuantIn(e, sub, k + 1) * ActIn(y, sub, k + 1)))
  {
    hide QuantIn, ActIn, LaneQuants, LaneActs, Wrap16, Saturate16;
    LaneAt(e, y, sub, g, c);
  }

  ghost predicate LaneIs(acc: seq<int>, h: Half, w: BlockQ4Kx8, y: BlockQ8K, sub: nat, n: nat, i: nat)
    requires w.Valid() && |y.qs| == 256 && sub < 8 && n <= 8 && i < 16 == |acc|
  {
    acc[i] == LaneAfter(Row(h, w, LaneRow(i / 2)), y, sub, i % 2, n)
  }

  ghost predicate LanesAfter(acc: seq<int>, h: Half, w: BlockQ4Kx8, y: BlockQ8K, sub: nat, n: nat)
    requires w.Valid() && |y.qs| == 256 && sub < 8 && n <= 8
  {
    |acc| == 16 && forall i {:trigger LaneIs(acc, h, w, y, sub, n, i)} :: 0 <= i < 16 ==> LaneIs(acc, h, w, y, sub, n, i)
  }

  /** Lane i of the vectors of multiply-add c: two of the next four quants of its row, and their activations. */
  ghost predicate FeedsLane(a: seq<int>, b: seq<int>, h: Half, w: BlockQ4Kx8, y: BlockQ8K, sub: nat, c: nat, i: nat)
    requires w.Valid() && |y.qs| == 256 && sub < 8 && c < 8 && i < 16 && |a| == |b| == 32
  {
    var e, k := Row(h, w, LaneRow(i / 2)), 4 * c + 2 * (i % 2);
    && a[2 * i] == QuantIn(e, sub, k) && a[2 * i + 1] == QuantIn(e, sub, k + 1)
    && b[2 * i] == ActIn(y, sub, k) && b[2 * i + 1] == ActIn(y, sub, k + 1)
  }

  ghost predicate Feeds(a: seq<int>, b: seq<int>, h: Half, w: BlockQ4Kx8, y: BlockQ8K, sub: nat, c: nat)
    requires w.Valid() && |y.qs| == 256 && sub < 8 && c < 8 && |a| == |b| == 32
  {
    forall i {:trigger FeedsLane(a, b, h, w, y, sub, c, i)} :: 0 <= i < 16 ==> FeedsLane(a, b, h, w, y, sub, c, i)
  }

  lemma LaneNext(acc: seq<int>, a: seq<int>, b: seq<int>, h: Half, w: BlockQ4Kx8, y: BlockQ8K, sub: nat, c: nat, i: nat)
    requires w.Valid() && |y.qs| == 256 && sub < 8 && c < 8 && i < 16 == |acc| && |a| == |b| == 32
    requires LaneIs(acc, h, w, y, sub, c, i) && FeedsLane(a, b, h, w, y, sub, c, i)
    ensures LaneIs(AddWords(acc, MaddBytes(a, b)), h, w, y, sub, c + 1, i)
  {
    hide Row, QuantIn, ActIn, LaneAfter, Wrap16, Saturate16;
    LaneAfterNext(Row(h, w, LaneRow(i / 2)), y, sub, i % 2, c);
  }

  lemma LanesNext(acc: seq<int>, a: seq<int>, b: seq<int>, h: Half, w: BlockQ4Kx8, y: BlockQ8K, sub: nat, c: nat)
    requires w.Valid() && |y.qs| == 256 && sub < 8 && c < 8 && |a| == |b| == 32
    requires LanesAfter(acc, h, w, y, sub, c) && Feeds(a, b, h, w, y, sub, c)
    ensures LanesAfter(AddWords(acc, MaddBytes(a, b)), h, w, y, sub, c + 1)
  {
    hide LaneIs, FeedsLane, Wrap16, Saturate16;
    var next, n := AddWords(acc, MaddBytes(a, b)), c + 1;
    forall i | 0 <= i < 16 ensures LaneIs(next, h, w, y, sub, n, i) {
      assert LaneIs(acc, h, w, y, sub, c, i) && FeedsLane(a, b, h, w, y, sub, c, i);
      LaneNext(acc, a, b, h, w, y, sub, c, i);
    }
  }

  /** The vectors of chunk t. */
  ghost predicate IsChunk(rows03: seq<int>, rows47: seq<int>, lhs: seq<int>, w: BlockQ4Kx8, y: BlockQ8K, sub: nat, t: nat)
    requires w.Valid() && |y.qs| == 256 && sub < 8 && t < 4
  {
    var at := 256 * (sub / 2) + 64 * t;
    && rows03 == Nibbles(Load(w.qs, at), sub % 2 == 1) && rows47 == Nibbles(Load(w.qs, at + 32), sub % 2 == 1)
    && lhs == y.qs[32 * sub + 16 * (t / 2)..32 * sub + 16 * (t / 2) + 16]
  }

  /** Byte u of lane j's group, in the vectors of half d of chunk t. */
  lemma GroupByte(h: Half, w: BlockQ4Kx8, y: BlockQ8K, sub: nat, t: nat, rows03: seq<int>, rows47: seq<int>, lhs: seq<int>, j: nat, u: nat)
    requires w.Valid() && |y.qs| == 256 && sub < 8 && t < 4 && j < 8 && u < 4 && IsChunk(rows03, rows47, lhs, w, y, sub, t)
    ensures |rows03| == |rows47| == 32 && |lhs| == 16
    ensures FirstFours(rows03, rows47)[4 * j + u] == QuantIn(Row(h, w, LaneRow(j)), sub, 8 * t + u)
    ensures LastFours(rows03, rows47)[4 * j + u] == QuantIn(Row(h, w, LaneRow(j)), sub, 8 * t + 4 + u)
    ensures Spread(lhs, 2 * (t % 2))[4 * j + u] == ActIn(y, sub, 8 * t + u)
    ensures Spread(lhs, 2 * (t % 2) + 1)[4 * j + u] == ActIn(y, sub, 8 * t + 4 + u)
  {
    hide Nibbles, Load, ChunkByte, Row, QuantIn, FirstFours, LastFours, Spread;
    FirstFoursAt(rows03, rows47, j, u);
    LastFoursAt(rows03, rows47, j, u);
    ChunkIsRow(h, w, sub, t, LaneRow(j), u);
    ChunkIsRow(h, w, sub, t, LaneRow(j), 4 + u);
    SpreadAt(lhs, 2 * (t % 2), j, u);
    SpreadAt(lhs, 2 * (t % 2) + 1, j, u);
  }

  lemma ChunkFeeds(h: Half, w: BlockQ4Kx8, y: BlockQ8K, sub: nat, t: nat, rows03: seq<int>, rows47: seq<int>, lhs: seq<int>)
    requires w.Valid() && |y.qs| == 256 && sub < 8 && t < 4 && IsChunk(rows03, rows47, lhs, w, y, sub, t)
    ensures |rows03| == |rows47| == 32 && |lhs| == 16
    ensures Feeds(FirstFours(rows03, rows47), Spread(lhs, 2 * (t % 2)), h, w, y, sub, 2 * t)
    ensures Feeds(LastFours(rows03, rows47), Spread(lhs, 2 * (t % 2) + 1), h, w, y, sub, 2 * t + 1)
  {
    hide FeedsLane, Row, QuantIn, ActIn, IsChunk, FirstFours, LastFours, Spread;
    LaneFed(h, w, y, sub, t, rows03, rows47, lhs, 0);
    var a, b, c := FirstFours(rows03, rows47), Spread(lhs, 2 * (t % 2)), 2 * t;
    forall i | 0 <= i < 16 ensures FeedsLane(a, b, h, w, y, sub, c, i) {
      LaneFed(h, w, y, sub, t, rows03, rows47, lhs, i);
    }
    var a', b', c' := LastFours(rows03, rows47), Spread(lhs, 2 * (t % 2) + 1), 2 * t + 1;
    forall i | 0 <= i < 16 ensures FeedsLane(a', b', h, w, y, sub, c', i) {
      LaneFed(h, w, y, sub, t, rows03, rows47, lhs, i);
    }
  }

  lemma LaneFed(h: Half, w: BlockQ4Kx8, y: BlockQ8K, sub: nat, t: nat, rows03: seq<int>, rows47: seq<int>, lhs: seq<int>, i: nat)
    requires w.Valid() && |y.qs| == 256 && sub < 8 && t < 4 && i < 16 && IsChunk(rows03, rows47, lhs, w, y, sub, t)
    ensures |rows03| == |rows47| == 32 && |lhs| == 16
    ensures FeedsLane(FirstFours(rows03, rows47), Spread(lhs, 2 * (t % 2)), h, w, y, sub, 2 * t, i)
    ensures FeedsLane(LastFours(rows03, rows47), Spread(lhs, 2 * (t % 2) + 1), h, w, y, sub, 2 * t + 1, i)
  {
    hide Row, QuantIn, ActIn, FirstFours, LastFours, Spread, IsChunk, LaneRow;
    var j, u := i / 2, 2 * (i % 2);
    GroupByte(h, w, y, sub, t, rows03, rows47, lhs, j, u);
    GroupByte(h, w, y, sub, t, rows03, rows47, lhs, j, u + 1);
    assert 2 * i == 4 * j + u;
    assert 4 * (2 * t) + u == 8 * t + u && 4 * (2 * t + 1) + u == 8 * t + 4 + u;
  }

  // ---------------------------------------------------------------- sub-block sums

  /** The two 16-bit lanes of a pair together hold the sub-block's dot. */
  lemma {:induction false} PairsAreDot(e: Decoded, y: BlockQ8K, sub: nat, n: nat)
    requires e.Valid() && |y.qs| == 256 && sub < 8 && n <= 8
    ensures PairDot(LaneQuants(e, sub, 0), LaneActs(y, sub, 0), n) + PairDot(LaneQuants(e, sub, 1), LaneActs(y, sub, 1), n)
         == SubDot(e, y, sub, 4 * n)
  {
    hide LaneQuants, LaneActs, Term;
    if n > 0 {
      PairsAreDot(e, y, sub, n - 1);
      PairLast(e, y, sub, 0, n - 1);
      PairLast(e, y, sub, 1, n - 1);
      FourMore(e, y, sub, 4 * (n - 1));
    }
  }

  ghost function Term(e: Decoded, y: BlockQ8K, sub: nat, k: nat): int
    requires e.Valid() && |y.qs| == 256 && sub < 8 && k < 32
  {
    QuantIn(e, sub, k) * ActIn(y, sub, k)
  }

  lemma FourMore(e: Decoded, y: BlockQ8K, sub: nat, k: nat)
    requires e.Valid() && |y.qs| == 256 && sub < 8 && k + 4 <= 32
    ensures SubDot(e, y, sub, k + 4)
         == SubDot(e, y, sub, k) + Term(e, y, sub, k) + Term(e, y, sub, k + 1) + Term(e, y, sub, k + 2) + Term(e, y, sub, k + 3)
  {
    SubDotStep(e, y, sub, k);
    SubDotStep(e, y, sub, k + 1);
    SubDotStep(e, y, sub, k + 2);
    SubDotStep(e, y, sub, k + 3);
  }

  lemma PairLast(e: Decoded, y: BlockQ8K, sub: nat, g: nat, c: nat)
    requires e.Valid() && |y.qs| == 256 && sub < 8 && g < 2 && c < 8
    ensures var q, v, k := LaneQuants(e, sub, g), LaneActs(y, sub, g), 4 * c + 2 * g;
            PairDot(q, v, c + 1) == PairDot(q, v, c) + (Term(e, y, sub, k) + Term(e, y, sub, k + 1))
  {
    hide QuantIn, ActIn, LaneQuants, LaneActs;
    LaneAt(e, y, sub, g, c);
  }

  lemma LaneBytes(e: Decoded, y: BlockQ8K, sub: nat, g: nat)
    requires e.Valid() && y.Valid() && sub < 8 && g < 2
    ensures var q, v := LaneQuants(e, sub, g), LaneActs(y, sub, g);
            && LaneAcc(q, v, 8) == PairDot(q, v, 8) && -30720 <= PairDot(q, v, 8) <= 30720
  {
    LaneExact(LaneQuants(e, sub, g), LaneActs(y, sub, g), 8);
  }

  /** Each row's scale in both lanes of its pair. */
  lemma {:induction false} ScaledPair(e: Decoded, y: BlockQ8K, sub: nat, p: int, q: int)
    requires e.Valid() && y.Valid() && sub < 8
    requires p == LaneAcc(LaneQuants(e, sub, 0), LaneActs(y, sub, 0), 8)
    requires q == LaneAcc(LaneQuants(e, sub, 1), LaneActs(y, sub, 1), 8)
    ensures Wrap32(p * e.scales[sub] + q * e.scales[sub]) == e.scales[sub] * SubDot(e, y, sub, 32)
    ensures -3870720 <= e.scales[sub] * SubDot(e, y, sub, 32) <= 3870720
  {
    LaneBytes(e, y, sub, 0);
    LaneBytes(e, y, sub, 1);
    PairsAreDot(e, y, sub, 8);
    Distribute(e.scales[sub], p, q);
    ScaledBound(e.scales[sub], p + q, 61440);
  }

  /** Byte k of the unpacked scale words: eight sub-scales, then eight sub-mins. */
  function UnpackedBytes(scales: seq<Byte>): (mas: seq<Byte>)
    requires |scales| == 12
    ensures |mas| == 16
  {
    seq(16, k requires 0 <= k < 16 => ByteOf(Unpacked(scales)[k / 4], k % 4))
  }

  /** The sub-scales shuffled into lane order, each twice, as words. */
  function ScaleWords(scales: seq<Byte>): (v: seq<int>)
    requires |scales| == 12
    ensures |v| == 16
  {
    var mask := [0, 0, 4, 4, 1, 1, 5, 5, 2, 2, 6, 6, 3, 3, 7, 7];
    seq(16, k requires 0 <= k < 16 => UnpackedBytes(scales)[mask[k]] as int)
  }

  /** The sub-mins of two sub-blocks, alternating by row, as words. */
  function MinWords(scales0: seq<Byte>, scales1: seq<Byte>): (v: seq<int>)
    requires |scales0| == |scales1| == 12
    ensures |v| == 16
  {
    seq(16, k requires 0 <= k < 16 => UnpackedBytes(if k % 2 == 0 then scales0 else scales1)[8 + k / 2] as int)
  }

  lemma RowScale(h: Half, w: BlockQ4Kx8, r: nat, sub: nat)
    requires w.Valid() && r < 8 && sub < 8
    ensures Row(h, w, r).scales[sub] == ScaleOf(r, RowOf(w, sub)) as int
    ensures Row(h, w, r).mins[sub] == MinOf(r, RowOf(w, sub)) as int
  {
    var x := Extracted(w, r);
    RowSixBit(w, r);
    StdDecodes(RowScales(w, r), RowMins(w, r), x.scales);
    assert Row(h, w, r).scales[sub] == ScaleInt(x, sub) && Row(h, w, r).mins[sub] == MinInt(x, sub);
  }

  lemma UnpackedBytesAt(scales: seq<Byte>, r: nat)
    requires |scales| == 12 && r < 8
    ensures UnpackedBytes(scales)[r] == ScaleOf(r, scales) && UnpackedBytes(scales)[8 + r] == MinOf(r, scales)
  {
    hide Unpacked, ScaleOf, MinOf, ByteOf;
    UnpackedScale(scales, r);
    UnpackedMin(scales, r);
    assert (8 + r) / 4 == 2 + r / 4 && (8 + r) % 4 == r % 4;
  }

  lemma ScaleWordsAt(h: Half, w: BlockQ4Kx8, sub: nat, j: nat, g: nat)
    requires w.Valid() && sub < 8 && j < 8 && g < 2
    ensures ScaleWords(RowOf(w, sub))[2 * j + g] == Row(h, w, LaneRow(j)).scales[sub]
  {
    hide UnpackedBytes, ScaleOf, MinOf, Row;
    RowScale(h, w, LaneRow(j), sub);
    UnpackedBytesAt(RowOf(w, sub), LaneRow(j));
  }

  lemma MinWordsAt(h: Half, w: BlockQ4Kx8, sb: nat, r: nat, g: nat)
    requires w.Valid() && sb < 4 && r < 8 && g < 2
    ensures MinWords(RowOf(w, 2 * sb), RowOf(w, 2 * sb + 1))[2 * r + g] == Row(h, w, r).mins[2 * sb + g]
  {
    hide UnpackedBytes, ScaleOf, MinOf, Row, RowOf;
    RowScale(h, w, r, 2 * sb + g);
    UnpackedBytesAt(RowOf(w, 2 * sb + g), r);
    assert (2 * r + g) / 2 == r && (2 * r + g) % 2 == g;
  }

  /** Each row's scaled dot of one sub-block, in lane order. */
  ghost predicate SubDots(v: seq<int>, h: Half, w: BlockQ4Kx8, y: BlockQ8K, sub: nat)
    requires w.Valid() && |y.qs| == 256 && sub < 8
  {
    |v| == 8 && forall j :: 0 <= j < 8 ==> v[j] == ScaledSub(Row(h, w, LaneRow(j)), y, sub)
  }

  ghost function ScaledSub(e: Decoded, y: BlockQ8K, sub: nat): int
    requires e.Valid() && |y.qs| == 256 && sub < 8
  {
    e.scales[sub] * SubDot(e, y, sub, 32)
  }

  lemma ScaledLanes(acc: seq<int>, h: Half, w: BlockQ4Kx8, y: BlockQ8K, sub: nat)
    requires w.Valid() && y.Valid() && sub < 8 && LanesAfter(acc, h, w, y, sub, 8)
    ensures SubDots(MaddWords(acc, ScaleWords(RowOf(w, sub))), h, w, y, sub)
  {
    hide Row, ScaledSub, ScaleWords, RowOf, LaneIs, Wrap32;
    forall j | 0 <= j < 8 ensures MaddWords(acc, ScaleWords(RowOf(w, sub)))[j] == ScaledSub(Row(h, w, LaneRow(j)), y, sub) {
      assert LaneIs(acc, h, w, y, sub, 8, 2 * j) && LaneIs(acc, h, w, y, sub, 8, 2 * j + 1);
      ScaledLane(acc, h, w, y, sub, j);
    }
  }

  lemma ScaledLane(acc: seq<int>, h: Half, w: BlockQ4Kx8, y: BlockQ8K, sub: nat, j: nat)
    requires w.Valid() && y.Valid() && sub < 8 && j < 8 && |acc| == 16
    requires LaneIs(acc, h, w, y, sub, 8, 2 * j) && LaneIs(acc, h, w, y, sub, 8, 2 * j + 1)
    ensures MaddWords(acc, ScaleWords(RowOf(w, sub)))[j] == ScaledSub(Row(h, w, LaneRow(j)), y, sub)
  {
    hide Row, LaneQuants, LaneActs, ScaleWords, RowOf, Wrap32, SubDot, LaneRow;
    ScaleWordsAt(h, w, sub, j, 0);
    ScaleWordsAt(h, w, sub, j, 1);
    assert (2 * j) / 2 == j && (2 * j + 1) / 2 == j && (2 * j) % 2 == 0 && (2 * j + 1) % 2 == 1;
    ScaledPair(Row(h, w, LaneRow(j)), y, sub, acc[2 * j], acc[2 * j + 1]);
  }

  /** No multiply-add yet. */
  lemma LanesNone(h: Half, w: BlockQ4Kx8, y: BlockQ8K, sub: nat)
    requires w.Valid() && |y.qs| == 256 && sub < 8
    ensures LanesAfter(seq(16, _ => 0), h, w, y, sub, 0)
  {
    hide Row, LaneQuants, LaneActs;
  }

  /** Eight rows' scaled dots of one sub-block: eight multiply-adds into 16-bit lanes, then the scales. */
  method SubBlock(ghost h: Half, w: BlockQ4Kx8, y: BlockQ8K, sub: nat) returns (iacc: seq<int>)
    requires w.Valid() && y.Valid() && sub < 8
    ensures SubDots(iacc, h, w, y, sub)
  {
    hide LanesAfter, SubDots;
    var acc: seq<int> := seq(16, _ => 0);
    LanesNone(h, w, y, sub);
    var t := 0;
    while t < 4
      invariant t <= 4 && |acc| == 16 && LanesAfter(acc, h, w, y, sub, 2 * t)
    {
      acc := ChunkStep(h, w, y, sub, t, acc);
      t := t + 1;
    }
    ScaledLanes(acc, h, w, y, sub);
    iacc := MaddWords(acc, ScaleWords(RowOf(w, sub)));
  }

  /** Two of the multiply-adds. */
  method ChunkStep(ghost h: Half, w: BlockQ4Kx8, y: BlockQ8K, sub: nat, t: nat, acc: seq<int>) returns (next: seq<int>)
    requires w.Valid() && y.Valid() && sub < 8 && t < 4 && |acc| == 16 && LanesAfter(acc, h, w, y, sub, 2 * t)
    ensures |next| == 16 && LanesAfter(next, h, w, y, sub, 2 * t + 2)
  {
    hide LanesAfter, Feeds, Nibbles, Load, FirstFours, LastFours, Spread;
    var at := 256 * (sub / 2) + 64 * t;
    var rows03, rows47 := Nibbles(Load(w.qs, at), sub % 2 == 1), Nibbles(Load(w.qs, at + 32), sub % 2 == 1);
    var lhs := y.qs[32 * sub + 16 * (t / 2)..32 * sub + 16 * (t / 2) + 16];
    ChunkFeeds(h, w, y, sub, t, rows03, rows47, lhs);
    LanesNext(acc, FirstFours(rows03, rows47), Spread(lhs, 2 * (t % 2)), h, w, y, sub, 2 * t);
    next := AddWords(acc, MaddBytes(FirstFours(rows03, rows47), Spread(lhs, 2 * (t % 2))));
    LanesNext(next, LastFours(rows03, rows47), Spread(lhs, 2 * (t % 2) + 1), h, w, y, sub, 2 * t + 1);
    next := AddWords(next, MaddBytes(LastFours(rows03, rows47), Spread(lhs, 2 * (t % 2) + 1)));
  }

  // ---------------------------------------------------------------- one block of eight rows

  /** Eight 32-bit lanes: lane j holds the first n sub-blocks of the row it works on. */
  ghost predicate ScaledLanesTo(v: seq<int>, h: Half, w: BlockQ4Kx8, y: BlockQ8K, n: nat)
    requires w.Valid() && |y.qs| == 256 && n <= 8
  {
    |v| == 8 && forall j :: 0 <= j < 8 ==> v[j] == ScaledTo(Row(h, w, LaneRow(j)), y, n)
  }

  /** And the minimum corrections, in row order. */
  ghost predicate MinLanesTo(v: seq<int>, h: Half, w: BlockQ4Kx8, y: BlockQ8K, n: nat)
    requires w.Valid() && |y.bsums| == 16 && n <= 8
  {
    |v| == 8 && forall r :: 0 <= r < 8 ==> v[r] == MinsTo(Row(h, w, r), y, n)
  }

  lemma ScaledBounds(e: Decoded, y: BlockQ8K, sub: nat)
    requires e.Valid() && y.Valid() && sub < 8
    ensures -3870720 <= ScaledSub(e, y, sub) <= 3870720
    ensures -3870720 * 8 <= ScaledTo(e, y, sub) <= 3870720 * 8
    ensures ScaledTo(e, y, sub + 1) == ScaledTo(e, y, sub) + ScaledSub(e, y, sub)
  {
    ScaledToBound(e, y, sub);
    SubDotBound(e, y, sub, 32);
    ScaledBound(e.scales[sub], SubDot(e, y, sub, 32), 61440);
  }

  lemma ScaledLanesNext(v: seq<int>, p: seq<int>, q: seq<int>, h: Half, w: BlockQ4Kx8, y: BlockQ8K, sb: nat)
    requires w.Valid() && y.Valid() && sb < 4 && ScaledLanesTo(v, h, w, y, 2 * sb)
    requires SubDots(p, h, w, y, 2 * sb) && SubDots(q, h, w, y, 2 * sb + 1)
    ensures ScaledLanesTo(AddInts(v, AddInts(p, q)), h, w, y, 2 * sb + 2)
  {
    hide Row, ScaledTo, ScaledSub, LaneRow;
    forall j | 0 <= j < 8 ensures AddInts(v, AddInts(p, q))[j] == ScaledTo(Row(h, w, LaneRow(j)), y, 2 * sb + 2) {
      ScaledBounds(Row(h, w, LaneRow(j)), y, 2 * sb);
      ScaledBounds(Row(h, w, LaneRow(j)), y, 2 * sb + 1);
    }
  }

  /** Neighbouring group sums added: one sum per sub-block, in both halves. */
  function PairSums(bsums: seq<int>): (q: seq<int>)
    requires |bsums| == 16
    ensures |q| == 16 && forall k :: 0 <= k < 16 ==> q[k] == Wrap16(bsums[2 * (k % 8)] + bsums[2 * (k % 8) + 1])
  {
    seq(16, k requires 0 <= k < 16 => Wrap16(bsums[2 * (k % 8)] + bsums[2 * (k % 8) + 1]))
  }

  /** The sums of sub-block `from` and on are in front. */
  ghost predicate SumsFrom(q: seq<int>, y: BlockQ8K, from: nat)
    requires |y.bsums| == 16
  {
    |q| == 16 && forall k :: 0 <= k < 16 && from + k % 8 < 8 ==> q[k] == SubSumOf(y, from + k % 8)
  }

  ghost function SubSumOf(y: BlockQ8K, sub: nat): int
    requires |y.bsums| == 16 && sub < 8
  {
    y.bsums[2 * sub] + y.bsums[2 * sub + 1]
  }

  lemma SubSumBound(y: BlockQ8K, sub: nat)
    requires y.Valid() && sub < 8
    ensures -4096 <= SubSumOf(y, sub) <= 4096
  {
    SumBoundOf(y, 2 * sub);
    SumBoundOf(y, 2 * sub + 1);
  }

  lemma SumsStart(y: BlockQ8K)
    requires y.Valid()
    ensures SumsFrom(PairSums(y.bsums), y, 0)
  {
    forall k | 0 <= k < 16 ensures PairSums(y.bsums)[k] == SubSumOf(y, 0 + k % 8) {
      SubSumBound(y, k % 8);
    }
  }

  lemma SumsDrop(q: seq<int>, y: BlockQ8K, from: nat)
    requires |y.bsums| == 16 && SumsFrom(q, y, from)
    ensures SumsFrom(DropPair(q), y, from + 2)
  {
    forall k | 0 <= k < 16 && from + 2 + k % 8 < 8 ensures DropPair(q)[k] == SubSumOf(y, from + 2 + k % 8) {
      assert (k + 2) % 8 == k % 8 + 2;
    }
  }

  lemma MinsNext(e: Decoded, y: BlockQ8K, sub: nat)
    requires e.Valid() && y.Valid() && sub < 8
    ensures -258048 <= e.mins[sub] * SubSumOf(y, sub) <= 258048
    ensures -258048 * 8 <= MinsTo(e, y, sub) <= 258048 * 8
    ensures MinsTo(e, y, sub + 1) == MinsTo(e, y, sub) + e.mins[sub] * SubSumOf(y, sub)
  {
    MinsToBound(e, y, sub);
    SubSumBound(y, sub);
    ScaledBound(e.mins[sub], SubSumOf(y, sub), 4096);
  }

  lemma MinLanesNext(v: seq<int>, q: seq<int>, h: Half, w: BlockQ4Kx8, y: BlockQ8K, sb: nat)
    requires w.Valid() && y.Valid() && sb < 4 && MinLanesTo(v, h, w, y, 2 * sb) && SumsFrom(q, y, 2 * sb)
    ensures MinLanesTo(AddInts(v, MaddWords(FirstPairs(q), MinWords(RowOf(w, 2 * sb), RowOf(w, 2 * sb + 1)))), h, w, y, 2 * sb + 2)
  {
    hide Row, MinsTo, MinWords, RowOf, SubSumOf;
    var m := MaddWords(FirstPairs(q), MinWords(RowOf(w, 2 * sb), RowOf(w, 2 * sb + 1)));
    forall r | 0 <= r < 8 ensures AddInts(v, m)[r] == MinsTo(Row(h, w, r), y, 2 * sb + 2) {
      MinLane(q, h, w, y, sb, r);
      MinsNext(Row(h, w, r), y, 2 * sb);
      MinsNext(Row(h, w, r), y, 2 * sb + 1);
    }
  }

  lemma MinLane(q: seq<int>, h: Half, w: BlockQ4Kx8, y: BlockQ8K, sb: nat, r: nat)
    requires w.Valid() && y.Valid() && sb < 4 && r < 8 && SumsFrom(q, y, 2 * sb)
    ensures var e := Row(h, w, r);
            MaddWords(FirstPairs(q), MinWords(RowOf(w, 2 * sb), RowOf(w, 2 * sb + 1)))[r]
            == e.mins[2 * sb] * SubSumOf(y, 2 * sb) + e.mins[2 * sb + 1] * SubSumOf(y, 2 * sb + 1)
  {
    hide Row, MinsTo, MinWords, RowOf, SubSumOf;
    MinWordsAt(h, w, sb, r, 0);
    MinWordsAt(h, w, sb, r, 1);
    MinsNext(Row(h, w, r), y, 2 * sb);
    MinsNext(Row(h, w, r), y, 2 * sb + 1);
    FrontPair(q, y, 2 * sb, r);
    Commute(Row(h, w, r).mins[2 * sb], SubSumOf(y, 2 * sb));
    Commute(Row(h, w, r).mins[2 * sb + 1], SubSumOf(y, 2 * sb + 1));
  }

  lemma Commute(a: int, b: int)
    ensures a * b == b * a
  {
  }

  lemma FrontPair(q: seq<int>, y: BlockQ8K, from: nat, r: nat)
    requires |y.bsums| == 16 && SumsFrom(q, y, from) && from + 1 < 8 && r < 8
    ensures FirstPairs(q)[2 * r] == SubSumOf(y, from) && FirstPairs(q)[2 * r + 1] == SubSumOf(y, from + 1)
  {
    assert (2 * r) % 2 == 0 && (2 * r + 1) % 2 == 1;
    assert (8 * (2 * r / 8)) % 8 == 0 && (8 * ((2 * r + 1) / 8) + 1) % 8 == 1;
  }

  /**
   The integer part of one block: no lane operation saturates or wraps, and the lanes end up holding
   every row's scaled integer dot and minimum correction.
   */
  method BlockLanes(ghost h: Half, w: BlockQ4Kx8, y: BlockQ8K) returns (iacc: seq<int>, imin: seq<int>)
    requires w.Valid() && y.Valid()
    ensures ScaledLanesTo(iacc, h, w, y, 8) && MinLanesTo(imin, h, w, y, 8)
  {
    hide SubDots, SumsFrom, Row;
    iacc, imin := seq(8, _ => 0), seq(8, _ => 0);
    var q8s := PairSums(y.bsums);
    SumsStart(y);
    var sb := 0;
    while sb < 4
      invariant sb <= 4 && |q8s| == 16
      invariant ScaledLanesTo(iacc, h, w, y, 2 * sb) && MinLanesTo(imin, h, w, y, 2 * sb) && SumsFrom(q8s, y, 2 * sb)
    {
      iacc, imin, q8s := GroupStep(h, w, y, sb, iacc, imin, q8s);
      sb := sb + 1;
    }
  }

  /** Two sub-blocks. */
  method GroupStep(ghost h: Half, w: BlockQ4Kx8, y: BlockQ8K, sb: nat, iacc: seq<int>, imin: seq<int>, q8s: seq<int>)
    returns (iacc': seq<int>, imin': seq<int>, q8s': seq<int>)
    requires w.Valid() && y.Valid() && sb < 4 && |q8s| == 16
    requires ScaledLanesTo(iacc, h, w, y, 2 * sb) && MinLanesTo(imin, h, w, y, 2 * sb) && SumsFrom(q8s, y, 2 * sb)
    ensures |q8s'| == 16
    ensures ScaledLanesTo(iacc', h, w, y, 2 * sb + 2) && MinLanesTo(imin', h, w, y, 2 * sb + 2) && SumsFrom(q8s', y, 2 * sb + 2)
  {
    var p := SubBlock(h, w, y, 2 * sb);
    var q := SubBlock(h, w, y, 2 * sb + 1);
    ScaledLanesNext(iacc, p, q, h, w, y, sb);
    MinLanesNext(imin, q8s, h, w, y, sb);
    SumsDrop(q8s, y, 2 * sb);
    hide *;
    iacc' := AddInts(iacc, AddInts(p, q));
    imin' := AddInts(imin, MaddWords(FirstPairs(q8s), MinWords(RowOf(w, 2 * sb), RowOf(w, 2 * sb + 1))));
    q8s' := DropPair(q8s);
  }

  // ---------------------------------------------------------------- the kernel

  /** Where the final permutation finds row r among the lanes. */
  function LaneOf(r: nat): (j: nat)
    requires r < 8
    ensures j < 8 && LaneRow(j) == r
  {
    [0, 2, 4, 6, 1, 3, 5, 7][r]
  }

  /** A lane's integer times the two scales, added on. */
  function Fma(acc: real, i: int, d: real, yd: real): real {
    acc + i as real * (d * yd)
  }

  /** Weight scales follow the lanes' rows. */
  function AddScaled(acc: seq<real>, iacc: seq<int>, h: Half, w: BlockQ4Kx8, yd: real): (r: seq<real>)
    requires |acc| == |iacc| == 8 && w.Valid()
    ensures |r| == 8 && forall j :: 0 <= j < 8 ==> r[j] == Fma(acc[j], iacc[j], h(w.d[LaneRow(j)]), yd)
  {
    seq(8, j requires 0 <= j < 8 => Fma(acc[j], iacc[j], h(w.d[LaneRow(j)]), yd))
  }

  /** Minimum scales are in row order, like the corrections. */
  function AddMins(acc: seq<real>, imin: seq<int>, h: Half, w: BlockQ4Kx8, yd: real): (r: seq<real>)
    requires |acc| == |imin| == 8 && w.Valid()
    ensures |r| == 8 && forall j :: 0 <= j < 8 ==> r[j] == Fma(acc[j], imin[j], h(w.dmin[j]), yd)
  {
    seq(8, j requires 0 <= j < 8 => Fma(acc[j], imin[j], h(w.dmin[j]), yd))
  }

  lemma FmaAssembles(a: real, m: real, i: int, k: int, d: real, dmin: real, yd: real)
    ensures Fma(a, i, d, yd) - Fma(m, k, dmin, yd) == a - m + Assembled(d, dmin, yd, i, k)
  {
    Reorder(i as real, d, yd);
    Reorder(k as real, dmin, yd);
  }

  lemma Reorder(x: real, d: real, yd: real)
    ensures x * (d * yd) == yd * d * x
    ensures -yd * d * x == -(yd * d * x)
  {
  }

  /** The rows' dot products over the first n blocks are the differences of the two accumulators. */
  ghost predicate Accumulated(rows: seq<real>, mins: seq<real>, h: Half, ws: seq<BlockQ4Kx8>, ys: seq<BlockQ8K>, n: nat)
    requires n <= |ws| == |ys| && ValidActivations(ys) && ValidInterleaved(ws)
  {
    |rows| == |mins| == 8 && forall r :: 0 <= r < 8 ==> rows[LaneOf(r)] - mins[r] == GemvRow(h, ws, ys, r, n)
  }

  lemma {:induction false} BlockDotIs(h: Half, w: BlockQ4Kx8, y: BlockQ8K, r: nat)
    requires w.Valid() && y.Valid() && r < 8
    ensures BlockDot(h, Extracted(w, r), y)
         == Assembled(h(w.d[r]), h(w.dmin[r]), y.d, ScaledTo(Row(h, w, r), y, 8), MinsTo(Row(h, w, r), y, 8))
  {
    FactoredIsDot(Row(h, w, r), y);
  }

  lemma AccumulatedNext(rows: seq<real>, mins: seq<real>, iacc: seq<int>, imin: seq<int>, h: Half, ws: seq<BlockQ4Kx8>,
                        ys: seq<BlockQ8K>, b: nat)
    requires b < |ws| == |ys| && ValidActivations(ys) && ValidInterleaved(ws) && Accumulated(rows, mins, h, ws, ys, b)
    requires ScaledLanesTo(iacc, h, ws[b], ys[b], 8) && MinLanesTo(imin, h, ws[b], ys[b], 8)
    ensures Accumulated(AddScaled(rows, iacc, h, ws[b], ys[b].d), AddMins(mins, imin, h, ws[b], ys[b].d), h, ws, ys, b + 1)
  {
    hide Row, ScaledTo, MinsTo, Assembled, Fma, GemvRow, LaneOf, BlockDot, Extracted;
    forall r | 0 <= r < 8
      ensures AddScaled(rows, iacc, h, ws[b], ys[b].d)[LaneOf(r)] - AddMins(mins, imin, h, ws[b], ys[b].d)[r] == GemvRow(h, ws, ys, r, b + 1)
    {
      BlockDotIs(h, ws[b], ys[b], r);
      GemvRowNext(h, ws, ys, r, b);
      FmaAssembles(rows[LaneOf(r)], mins[r], iacc[LaneOf(r)], imin[r], h(ws[b].d[r]), h(ws[b].dmin[r]), ys[b].d);
    }
  }

  lemma GemvRowNext(h: Half, ws: seq<BlockQ4Kx8>, ys: seq<BlockQ8K>, r: nat, b: nat)
    requires r < 8 && b < |ws| == |ys| && ValidActivations(ys) && ValidInterleaved(ws)
    ensures GemvRow(h, ws, ys, r, b + 1) == GemvRow(h, ws, ys, r, b) + BlockDot(h, Extracted(ws[b], r), ys[b])
  {
    assert BlockDots(h, RowBlocks(ws, r), ys)[b] == BlockDot(h, Extracted(ws[b], r), ys[b]);
  }

  /** Nothing accumulated yet. */
  lemma AccumulatedNone(h: Half, ws: seq<BlockQ4Kx8>, ys: seq<BlockQ8K>)
    requires |ws| == |ys| && ValidActivations(ys) && ValidInterleaved(ws)
    ensures Accumulated(seq(8, _ => 0.0), seq(8, _ => 0.0), h, ws, ys, 0)
  {
    forall r | 0 <= r < 8 ensures GemvRow(h, ws, ys, r, 0) == 0.0 {
    }
  }

  /** The vector kernel computes what the scalar kernel over the same interleaved blocks computes. */
  method GemvAvx2(h: Half, weights: seq<BlockQ4Kx8>, activation: seq<BlockQ8K>) returns (output: array<real>)
    requires |weights| == |activation| && ValidActivations(activation) && ValidInterleaved(weights)
    ensures fresh(output) && output.Length == 8
    ensures output[..] == GemvRows(h, weights, activation, |weights|)
  {
    hide Accumulated, ScaledLanesTo, MinLanesTo;
    var rows: seq<real>, mins: seq<real> := seq(8, _ => 0.0), seq(8, _ => 0.0);
    AccumulatedNone(h, weights, activation);
    var b := 0;
    while b < |weights|
      invariant b <= |weights| && |rows| == |mins| == 8 && Accumulated(rows, mins, h, weights, activation, b)
    {
      rows, mins := BlockStep(h, weights, activation, b, rows, mins);
      b := b + 1;
    }
    output := Permuted(h, weights, activation, rows, mins);
  }

  method BlockStep(h: Half, ws: seq<BlockQ4Kx8>, ys: seq<BlockQ8K>, b: nat, rows: seq<real>, mins: seq<real>)
    returns (rows': seq<real>, mins': seq<real>)
    requires b < |ws| == |ys| && ValidActivations(ys) && ValidInterleaved(ws) && |rows| == |mins| == 8
    requires Accumulated(rows, mins, h, ws, ys, b)
    ensures |rows'| == |mins'| == 8 && Accumulated(rows', mins', h, ws, ys, b + 1)
  {
    hide Accumulated;
    var iacc, imin := BlockLanes(h, ws[b], ys[b]);
    AccumulatedNext(rows, mins, iacc, imin, h, ws, ys, b);
    rows', mins' := AddScaled(rows, iacc, h, ws[b], ys[b].d), AddMins(mins, imin, h, ws[b], ys[b].d);
  }

  /** The lanes permuted into row order, less the corrections. */
  method Permuted(ghost h: Half, ghost ws: seq<BlockQ4Kx8>, ghost ys: seq<BlockQ8K>, rows: seq<real>, mins: seq<real>) returns (output: array<real>)
    requires |ws| == |ys| && ValidActivations(ys) && ValidInterleaved(ws) && Accumulated(rows, mins, h, ws, ys, |ws|)
    ensures fresh(output) && output.Length == 8 && output[..] == GemvRows(h, ws, ys, |ws|)
  {
    hide GemvRow, LaneOf;
    output := new real[8](r requires 0 <= r < 8 => rows[LaneOf(r)] - mins[r]);
    assert forall r :: 0 <= r < 8 ==> output[r] == GemvRow(h, ws, ys, r, |ws|);
  }
}
