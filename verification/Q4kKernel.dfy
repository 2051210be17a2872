/** The kernels over packed blocks, in 32-bit integers, against the arithmetic of the decoded numbers. */
module Q4kKernel {
  import opened Wrappers
  import opened Q4kLayout
  import opened Q4kRepack
  import opened Q4kScales
  import opened Q4kMath

  /** What a 16-bit float's bits stand for; arbitrary here. */
  type Half = bv16 -> real

  function Low(b: Byte): (n: int)
    ensures 0 <= n <= 15
  {
    var y := b & 0x0F;
    assert y <= 15;
    y as int
  }

  function High(b: Byte): (n: int)
    ensures 0 <= n <= 15
  {
    var y := b >> 4;
    assert y <= 15;
    y as int
  }

  function SixBitInt(b: Byte): (n: int)
    requires b & 0x3F == b
    ensures 0 <= n <= 63
  {
    assert b <= 63;
    b as int
  }

  /** Quant i: low nibbles of 32 bytes, then their high nibbles, 64 quants at a time. */
  function Quant(x: BlockQ4K, i: nat): (n: int)
    requires x.Valid() && i < 256
    ensures 0 <= n <= 15
  {
    var b := x.qs[i / 64 * 32 + i % 32];
    if i / 32 % 2 == 0 then Low(b) else High(b)
  }

  function ScaleInt(x: BlockQ4K, sub: nat): (n: int)
    requires x.Valid() && sub < 8
    ensures 0 <= n <= 63
  {
    DecodedSixBit(x.scales, sub);
    SixBitInt(ScaleOf(sub, x.scales))
  }

  function MinInt(x: BlockQ4K, sub: nat): (n: int)
    requires x.Valid() && sub < 8
    ensures 0 <= n <= 63
  {
    DecodedSixBit(x.scales, sub);
    SixBitInt(MinOf(sub, x.scales))
  }

  /** The numbers in a block. */
  function DecodedOf(h: Half, x: BlockQ4K): (e: Decoded)
    requires x.Valid()
    ensures e.d == h(x.d) && e.dmin == h(x.dmin) && |e.scales| == |e.mins| == 8 && |e.quants| == 256
  {
    Decoded(h(x.d), h(x.dmin), seq(8, j requires 0 <= j < 8 => ScaleInt(x, j)), seq(8, j requires 0 <= j < 8 => MinInt(x, j)),
            seq(256, i requires 0 <= i < 256 => Quant(x, i)))
  }

  lemma DecodedValid(h: Half, x: BlockQ4K)
    requires x.Valid()
    ensures DecodedOf(h, x).Valid()
  {
    var e := DecodedOf(h, x);
    forall i | 0 <= i < 256 ensures 0 <= e.quants[i] <= 15 {
      assert e.quants[i] == Quant(x, i);
    }
    forall j | 0 <= j < 8 ensures 0 <= e.scales[j] <= 63 && 0 <= e.mins[j] <= 63 {
      assert e.scales[j] == ScaleInt(x, j) && e.mins[j] == MinInt(x, j);
    }
  }

  predicate ValidWeights(xs: seq<BlockQ4K>) {
    forall i {:trigger xs[i]} :: 0 <= i < |xs| ==> xs[i].Valid()
  }

  ghost predicate ValidActivations(ys: seq<BlockQ8K>) {
    forall i {:trigger ys[i]} :: 0 <= i < |ys| ==> ys[i].Valid()
  }

  /** Dequantise-then-dot of one block. */
  ghost function BlockDot(h: Half, x: BlockQ4K, y: BlockQ8K): real
    requires x.Valid() && y.Valid()
  {
    DecodedValid(h, x);
    Dot(DecodedOf(h, x), y)
  }

  /** The blocks' dots. */
  ghost function BlockDots(h: Half, xs: seq<BlockQ4K>, ys: seq<BlockQ8K>): (v: seq<real>)
    requires ValidWeights(xs) && ValidActivations(ys) && |xs| == |ys|
    ensures |v| == |xs|
  {
    seq(|xs|, i requires 0 <= i < |xs| => BlockDot(h, xs[i], ys[i]))
  }

  ghost function SumReal(v: seq<real>, n: nat): real
    requires n <= |v|
  {
    if n == 0 then 0.0 else SumReal(v, n - 1) + v[n - 1]
  }

  /** The dot product of the first n blocks of two rows. */
  ghost function RowDot(h: Half, xs: seq<BlockQ4K>, ys: seq<BlockQ8K>, n: nat): real
    requires ValidWeights(xs) && ValidActivations(ys) && n <= |xs| == |ys|
  {
    SumReal(BlockDots(h, xs, ys), n)
  }

  lemma RowDotNone(h: Half, xs: seq<BlockQ4K>, ys: seq<BlockQ8K>)
    requires ValidWeights(xs) && ValidActivations(ys) && |xs| == |ys|
    ensures RowDot(h, xs, ys, 0) == 0.0
  {
  }

  lemma RowDotNext(h: Half, xs: seq<BlockQ4K>, ys: seq<BlockQ8K>, b: nat)
    requires ValidWeights(xs) && ValidActivations(ys) && b < |xs| == |ys|
    ensures RowDot(h, xs, ys, b + 1) == RowDot(h, xs, ys, b) + BlockDot(h, xs[b], ys[b])
  {
  }

  // ---------------------------------------------------------------- the numbers are all of the block

  lemma NibblesRecompose(b: Byte)
    ensures Low(b) + 16 * High(b) == b as int
  {
  }

  /** Quants i and i + 32 of each group of 64 are the two nibbles of one packed byte: together they give it back. */
  lemma QuantsRecompose(x: BlockQ4K, g: nat, k: nat)
    requires x.Valid() && g < 4 && k < 32
    ensures Quant(x, 64 * g + k) + 16 * Quant(x, 64 * g + 32 + k) == x.qs[32 * g + k] as int
  {
    hide Quant, Low, High;
    QuantAt(x, 2 * g, k);
    QuantAt(x, 2 * g + 1, k);
    NibblesRecompose(x.qs[32 * g + k]);
  }

  /** A block whose scale bytes were packed from six-bit values decodes to those values. */
  lemma ScalesRecover(x: BlockQ4K, s: seq<Byte>, m: seq<Byte>, sub: nat)
    requires x.Valid() && Encodes(x.scales, s, m) && sub < 8
    ensures ScaleInt(x, sub) == s[sub] as int && MinInt(x, sub) == m[sub] as int
  {
    StdDecodes(s, m, x.scales);
  }

  // ---------------------------------------------------------------- dequantisation

  /** Writes a block's 256 real weights, 64 at a time: 32 low nibbles, then 32 high ones. */
  method DequantizeBlock(h: Half, x: BlockQ4K) returns (out: array<real>)
    requires x.Valid()
    ensures fresh(out) && out.Length == 256 && DecodedOf(h, x).Valid() && out[..] == Weights(DecodedOf(h, x))
  {
    DecodedValid(h, x);
    ghost var w := Weights(DecodedOf(h, x));
    out := new real[256];
    var sub := 0;
    while sub < 8
      invariant sub <= 8 && sub % 2 == 0
      invariant forall i :: 0 <= i < 32 * sub ==> out[i] == w[i]
    {
      DequantizeSub(h, x, sub, out);
      DequantizeSub(h, x, sub + 1, out);
      sub := sub + 2;
    }
  }

  /** Writes the 32 weights of one sub-block. */
  method DequantizeSub(h: Half, x: BlockQ4K, sub: nat, out: array<real>)
    requires x.Valid() && sub < 8 && out.Length == 256 && DecodedOf(h, x).Valid()
    modifies out
    ensures forall i :: 0 <= i < 256 ==>
        out[i] == if 32 * sub <= i < 32 * sub + 32 then Weights(DecodedOf(h, x))[i] else old(out[i])
  {
    ghost var w := Weights(DecodedOf(h, x));
    var d1, m1 := Times(h(x.d), ScaleInt(x, sub)), Times(h(x.dmin), MinInt(x, sub));
    var pair := sub / 2;
    var k := 0;
    while k < 32
      invariant k <= 32
      invariant forall i :: 0 <= i < 256 ==> out[i] == if 32 * sub <= i < 32 * sub + k then w[i] else old(out[i])
    {
      DecodedAt(h, x, sub, k);
      WeightsAt(DecodedOf(h, x), sub, k);
      var raw := x.qs[pair * 32 + k];
      out[32 * sub + k] := WeightOf(d1, m1, if sub % 2 == 0 then Low(raw) else High(raw));
      k := k + 1;
    }
  }

  lemma DecodedAt(h: Half, x: BlockQ4K, sub: nat, k: nat)
    requires x.Valid() && sub < 8 && k < 32
    ensures sub / 2 * 32 + k < 128
    ensures var e, raw := DecodedOf(h, x), x.qs[sub / 2 * 32 + k];
            && e.scales[sub] == ScaleInt(x, sub) && e.mins[sub] == MinInt(x, sub)
            && e.quants[32 * sub + k] == if sub % 2 == 0 then Low(raw) else High(raw)
  {
    QuantAt(x, sub, k);
  }

  lemma QuantAt(x: BlockQ4K, sub: nat, k: nat)
    requires x.Valid() && sub < 8 && k < 32
    ensures (32 * sub + k) / 32 == sub && sub / 2 * 32 + k < 128
    ensures Quant(x, 32 * sub + k) == if sub % 2 == 0 then Low(x.qs[sub / 2 * 32 + k]) else High(x.qs[sub / 2 * 32 + k])
  {
    var i := 32 * sub + k;
    assert i / 32 == sub && i % 32 == k && i / 64 == sub / 2;
  }

  // ---------------------------------------------------------------- the scalar kernel

  /** The minimum correction of a block, in 32 bits. */
  method MinSum(ghost h: Half, x: BlockQ4K, y: BlockQ8K, utmp: array<bv32>) returns (sum: i32)
    requires x.Valid() && y.Valid() && utmp[..] == Unpacked(x.scales)
    ensures DecodedOf(h, x).Valid() && sum as int == MinsTo(DecodedOf(h, x), y, 8)
  {
    DecodedValid(h, x);
    ghost var e := DecodedOf(h, x);
    sum := 0;
    var sub := 0;
    while sub < 8
      invariant sub <= 8 && sum as int == MinsTo(e, y, sub)
    {
      MinsToBound(e, y, sub);
      MinsToBound(e, y, sub + 1);
      var m := UnpackedMinInt(x, utmp, sub);
      var t := MinTerm32(y, sub, m);
      sum := sum + t;
      sub := sub + 1;
    }
  }

  /** A sub-min times the sum of its 32 activations, in 32 bits. */
  method MinTerm32(y: BlockQ8K, sub: nat, m: int) returns (t: i32)
    requires y.Valid() && sub < 8 && 0 <= m <= 63
    ensures t as int == m * (y.bsums[2 * sub] + y.bsums[2 * sub + 1])
  {
    SumBoundOf(y, 2 * sub);
    SumBoundOf(y, 2 * sub + 1);
    var bs := y.bsums[2 * sub] as i32 + y.bsums[2 * sub + 1] as i32;
    ScaledBound(m, bs as int, 4096);
    t := m as i32 * bs;
  }

  method UnpackedMinInt(x: BlockQ4K, utmp: array<bv32>, sub: nat) returns (m: int)
    requires x.Valid() && sub < 8 && utmp[..] == Unpacked(x.scales)
    ensures m == MinInt(x, sub)
  {
    UnpackedMin(x.scales, sub);
    DecodedSixBit(x.scales, sub);
    assert utmp[2 + sub / 4] == utmp[..][2 + sub / 4];
    m := SixBitInt(ByteOf(utmp[2 + sub / 4], sub % 4));
  }

  method UnpackedScaleInt(x: BlockQ4K, utmp: array<bv32>, sub: nat) returns (s: int)
    requires x.Valid() && sub < 8 && utmp[..] == Unpacked(x.scales)
    ensures s == ScaleInt(x, sub)
  {
    UnpackedScale(x.scales, sub);
    DecodedSixBit(x.scales, sub);
    assert utmp[sub / 4] == utmp[..][sub / 4];
    s := SixBitInt(ByteOf(utmp[sub / 4], sub % 4));
  }

  /** One sub-block's integer dot, in 32 bits. */
  method LocalDot(ghost h: Half, x: BlockQ4K, y: BlockQ8K, sub: nat) returns (local: i32)
    requires x.Valid() && y.Valid() && sub < 8
    ensures DecodedOf(h, x).Valid() && local as int == SubDot(DecodedOf(h, x), y, sub, 32)
  {
    DecodedValid(h, x);
    ghost var e := DecodedOf(h, x);
    local := 0;
    var pair, nibble := sub / 2, sub % 2;
    var k := 0;
    while k < 32
      invariant k <= 32 && local as int == SubDot(e, y, sub, k)
    {
      SubDotBound(e, y, sub, k);
      SubDotBound(e, y, sub, k + 1);
      QuantAt(x, sub, k);
      var raw := x.qs[pair * 32 + k];
      var q4 := if nibble == 0 then Low(raw) else High(raw);
      ProductBound(q4, y.qs[32 * sub + k]);
      local := local + q4 as i32 * y.qs[32 * sub + k] as i32;
      k := k + 1;
    }
  }

  /** The scaled integer dot of a block, in 32 bits. */
  method ScaledSum(ghost h: Half, x: BlockQ4K, y: BlockQ8K, utmp: array<bv32>) returns (sumi: i32)
    requires x.Valid() && y.Valid() && utmp[..] == Unpacked(x.scales)
    ensures DecodedOf(h, x).Valid() && sumi as int == ScaledTo(DecodedOf(h, x), y, 8)
  {
    DecodedValid(h, x);
    ghost var e := DecodedOf(h, x);
    sumi := 0;
    var sub := 0;
    while sub < 8
      invariant sub <= 8 && sumi as int == ScaledTo(e, y, sub)
      invariant utmp[..] == Unpacked(x.scales)
    {
      ScaledToBound(e, y, sub);
      ScaledToBound(e, y, sub + 1);
      SubDotBound(e, y, sub, 32);
      var scale := UnpackedScaleInt(x, utmp, sub);
      var local := LocalDot(h, x, y, sub);
      ScaledBound(scale, local as int, 61440);
      sumi := sumi + scale as i32 * local;
      sub := sub + 1;
    }
  }

  /** One block's contribution: two integer sums, each scaled once. */
  method BlockValue(h: Half, x: BlockQ4K, y: BlockQ8K) returns (v: real)
    requires x.Valid() && y.Valid()
    ensures v == BlockDot(h, x, y)
  {
    DecodedValid(h, x);
    var utmp := UnpackScales(x.scales);
    var minSum := MinSum(h, x, y, utmp);
    var sumi := ScaledSum(h, x, y, utmp);
    FactoredIsDot(DecodedOf(h, x), y);
    v := Assembled(h(x.d), h(x.dmin), y.d, sumi as int, minSum as int);
  }

  /** The dot product of two rows of blocks, factored block by block. */
  method VecDotScalar(h: Half, xs: seq<BlockQ4K>, ys: seq<BlockQ8K>) returns (acc: real)
    requires ValidWeights(xs) && ValidActivations(ys) && |xs| == |ys|
    ensures acc == RowDot(h, xs, ys, |xs|)
  {
    hide RowDot, BlockDot;
    acc := 0.0;
    RowDotNone(h, xs, ys);
    var b := 0;
    while b < |xs|
      invariant b <= |xs| && acc == RowDot(h, xs, ys, b)
    {
      RowDotNext(h, xs, ys, b);
      var v := BlockValue(h, xs[b], ys[b]);
      acc := acc + v;
      b := b + 1;
    }
  }

  // ---------------------------------------------------------------- eight interleaved rows

  /** Dequantise-then-dot of one block, term by term. */
  method DequantizedDot(h: Half, x: BlockQ4K, y: BlockQ8K) returns (v: real)
    requires x.Valid() && y.Valid()
    ensures v == BlockDot(h, x, y)
  {
    DecodedValid(h, x);
    ghost var e := DecodedOf(h, x);
    var row := DequantizeBlock(h, x);
    var s := 0.0;
    var i := 0;
    while i < 256
      invariant i <= 256 && Times2(s, y.d) == DotTo(e, y, i)
      invariant row[..] == Weights(e)
    {
      assert row[i] == row[..][i];
      var next := s + Times(row[i], y.qs[i]);
      DotStep(e, y, i, s, row[i], next);
      s := next;
      i := i + 1;
    }
    v := Times2(s, y.d);
  }

  /** Row r of a column of interleaved blocks. */
  ghost function RowBlocks(ws: seq<BlockQ4Kx8>, r: nat): (xs: seq<BlockQ4K>)
    requires r < 8 && ValidInterleaved(ws)
    ensures |xs| == |ws| && ValidWeights(xs) && forall i :: 0 <= i < |ws| ==> xs[i] == Extracted(ws[i], r)
  {
    seq(|ws|, i requires 0 <= i < |ws| => Extracted(ws[i], r))
  }

  /** Row r's dot product over the first n blocks. */
  ghost function GemvRow(h: Half, ws: seq<BlockQ4Kx8>, ys: seq<BlockQ8K>, r: nat, n: nat): real
    requires r < 8 && n <= |ws| == |ys| && ValidActivations(ys) && ValidInterleaved(ws)
  {
    RowDot(h, RowBlocks(ws, r), ys, n)
  }

  predicate ValidInterleaved(ws: seq<BlockQ4Kx8>) {
    forall i {:trigger ws[i]} :: 0 <= i < |ws| ==> ws[i].Valid()
  }

  /** One interleaved block's eight dots. */
  ghost function EightDots(h: Half, w: BlockQ4Kx8, y: BlockQ8K): (v: seq<real>)
    requires w.Valid() && y.Valid()
    ensures |v| == 8
  {
    seq(8, r requires 0 <= r < 8 => BlockDot(h, Extracted(w, r), y))
  }

  /** v are the eight dots. Folded. */
  ghost predicate AreDots(v: seq<real>, h: Half, w: BlockQ4Kx8, y: BlockQ8K)
    requires w.Valid() && y.Valid()
  {
    |v| == 8 && forall n :: Unfold(n) ==> v == EightDots(h, w, y)
  }

  lemma GemvNext(h: Half, ws: seq<BlockQ4Kx8>, ys: seq<BlockQ8K>, b: nat, v: seq<real>)
    requires b < |ws| == |ys| && ValidActivations(ys) && ValidInterleaved(ws) && AreDots(v, h, ws[b], ys[b])
    ensures forall r :: 0 <= r < 8 ==> GemvRow(h, ws, ys, r, b + 1) == GemvRow(h, ws, ys, r, b) + v[r]
  {
    assert Unfold(0);
    forall r | 0 <= r < 8 ensures GemvRow(h, ws, ys, r, b + 1) == GemvRow(h, ws, ys, r, b) + v[r] {
      assert BlockDots(h, RowBlocks(ws, r), ys)[b] == BlockDot(h, Extracted(ws[b], r), ys[b]);
    }
  }

  /** Eight dot products at once, from the interleaved form: each row's is that of the row's own blocks. */
  method GemvScalar(h: Half, weights: seq<BlockQ4Kx8>, activation: seq<BlockQ8K>) returns (output: array<real>)
    requires |weights| == |activation| && ValidActivations(activation) && ValidInterleaved(weights)
    ensures fresh(output) && output.Length == 8
    ensures output[..] == GemvRows(h, weights, activation, |weights|)
  {
    hide GemvRows, AreDots;
    output := new real[8](_ => 0.0);
    GemvRowsNone(h, weights, activation);
    assert output[..] == seq(8, _ => 0.0);
    var b := 0;
    while b < |weights|
      invariant b <= |weights| && output[..] == GemvRows(h, weights, activation, b)
    {
      var v := EightValues(h, weights[b], activation[b]);
      GemvRowsNext(h, weights, activation, b, v);
      AddEight(output, v);
      b := b + 1;
    }
  }

  /** The eight rows' dot products over the first n blocks. */
  ghost function GemvRows(h: Half, ws: seq<BlockQ4Kx8>, ys: seq<BlockQ8K>, n: nat): (v: seq<real>)
    requires n <= |ws| == |ys| && ValidActivations(ys) && ValidInterleaved(ws)
    ensures |v| == 8
  {
    seq(8, r requires 0 <= r < 8 => GemvRow(h, ws, ys, r, n))
  }

  lemma GemvRowsNone(h: Half, ws: seq<BlockQ4Kx8>, ys: seq<BlockQ8K>)
    requires |ws| == |ys| && ValidActivations(ys) && ValidInterleaved(ws)
    ensures GemvRows(h, ws, ys, 0) == seq(8, _ => 0.0)
  {
  }

  lemma GemvRowsNext(h: Half, ws: seq<BlockQ4Kx8>, ys: seq<BlockQ8K>, b: nat, v: seq<real>)
    requires b < |ws| == |ys| && ValidActivations(ys) && ValidInterleaved(ws) && AreDots(v, h, ws[b], ys[b])
    ensures GemvRows(h, ws, ys, b + 1) == Added(GemvRows(h, ws, ys, b), v)
  {
    GemvNext(h, ws, ys, b, v);
  }

  function Added(a: seq<real>, b: seq<real>): seq<real>
    requires |a| == |b|
  {
    seq(|a|, i requires 0 <= i < |a| => a[i] + b[i])
  }

  method AddEight(output: array<real>, v: seq<real>)
    requires output.Length == |v|
    modifies output
    ensures output[..] == Added(old(output[..]), v)
  {
    var r := 0;
    while r < |v|
      invariant r <= |v|
      invariant forall i :: 0 <= i < r ==> output[i] == old(output[i]) + v[i]
      invariant forall i :: r <= i < |v| ==> output[i] == old(output[i])
    {
      output[r] := output[r] + v[r];
      r := r + 1;
    }
  }

  /** Dequantises the eight rows of one interleaved block and dots each. */
  method EightValues(h: Half, w: BlockQ4Kx8, y: BlockQ8K) returns (v: seq<real>)
    requires w.Valid() && y.Valid()
    ensures AreDots(v, h, w, y)
  {
    var rows := ReverseRepackQ4kx8(w);
    v := [];
    while |v| < 8
      invariant |v| <= 8 && v == EightDots(h, w, y)[..|v|]
    {
      DotOfRow(h, w, y, |v|);
      var d := DequantizedDot(h, rows[|v|], y);
      v := v + [d];
    }
  }

  lemma DotOfRow(h: Half, w: BlockQ4Kx8, y: BlockQ8K, r: nat)
    requires w.Valid() && y.Valid() && r < 8
    ensures EightDots(h, w, y)[r] == BlockDot(h, Reversed(w)[r], y)
  {
  }

  /** Block b of each of eight rows. */
  function Group(rows: seq<seq<BlockQ4K>>, b: nat): (g: seq<BlockQ4K>)
    requires EightRows(rows, b)
    ensures |g| == 8 && forall i :: 0 <= i < 8 ==> g[i] == rows[i][b]
  {
    seq(8, i requires 0 <= i < 8 => rows[i][b])
  }

  predicate EightRows(rows: seq<seq<BlockQ4K>>, b: nat) {
    |rows| == 8 && forall i :: 0 <= i < 8 ==> b < |rows[i]|
  }

  /** ws is eight rows repacked, block by block. */
  ghost predicate RepackedRows(rows: seq<seq<BlockQ4K>>, ws: seq<BlockQ4Kx8>) {
    && |rows| == 8 && (forall i :: 0 <= i < 8 ==> |rows[i]| == |ws| && ValidWeights(rows[i]))
    && ValidInterleaved(ws)
    && forall b :: 0 <= b < |ws| ==> EightRows(rows, b) && Eight(Group(rows, b)) && ws[b] == Repacked(Group(rows, b))
  }

  lemma RepackedRow(rows: seq<seq<BlockQ4K>>, ws: seq<BlockQ4Kx8>, r: nat, b: nat)
    requires RepackedRows(rows, ws) && r < 8 && b < |ws|
    ensures Extracted(ws[b], r) == rows[r][b]
  {
    ReverseOfRepack(Group(rows, b));
    assert Extracted(ws[b], r) == Reversed(ws[b])[r];
  }

  /** On repacked rows the interleaved kernel and the row-by-row kernel agree: both are the rows' dot products. */
  lemma GemvIsVecDot(h: Half, rows: seq<seq<BlockQ4K>>, ws: seq<BlockQ4Kx8>, ys: seq<BlockQ8K>, r: nat)
    requires RepackedRows(rows, ws) && ValidActivations(ys) && r < 8 && |ws| == |ys|
    ensures GemvRow(h, ws, ys, r, |ws|) == RowDot(h, rows[r], ys, |ws|)
  {
    forall b | 0 <= b < |ws| ensures RowBlocks(ws, r)[b] == rows[r][b] {
      RepackedRow(rows, ws, r, b);
    }
    assert RowBlocks(ws, r) == rows[r];
  }
}
