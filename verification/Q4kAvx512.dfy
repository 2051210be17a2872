/**
 The 512-bit vector kernel for one row, from the packed bytes to the row's dot product, and the matrix
 product over it. Every 512-bit operation acts on its two 256-bit halves alike, so a register is a pair
 of halves.
 */
module Q4kAvx512 {
  import opened Wrappers
  import opened Q4kLayout
  import opened Q4kScales
  import opened Q4kMath
  import opened Q4kKernel
  import opened Q4kAvx2

  // ---------------------------------------------------------------- one half of a pass

  /** The 32 activations of a sub-block. */
  function Acts(y: BlockQ8K, sub: nat): (a: seq<int>)
    requires |y.qs| == 256 && sub < 8
    ensures |a| == 32 && forall k :: 0 <= k < 32 ==> a[k] == y.qs[32 * sub + k]
  {
    y.qs[32 * sub..32 * sub + 32]
  }

  /** One scale in all sixteen words of a half. */
  function AllWords(s: int): (v: seq<int>)
    ensures |v| == 16 && forall i :: 0 <= i < 16 ==> v[i] == s
  {
    seq(16, _ => s)
  }

  /** The nibbles are the quants of a sub-block. */
  ghost predicate QuantsOf(nibbles: seq<int>, e: Decoded, sub: nat)
    requires e.Valid() && sub < 8 && |nibbles| == 32
  {
    forall k :: 0 <= k < 32 ==> nibbles[k] == QuantIn(e, sub, k)
  }

  /** Half the bytes loaded for a pass: their low nibbles are one sub-block, their high nibbles the next. */
  lemma NibblesAreQuants(h: Half, x: BlockQ4K, sub: nat)
    requires x.Valid() && sub < 8 && DecodedOf(h, x).Valid() && 32 * (sub / 2) + 32 <= 128
    ensures QuantsOf(Nibbles(Load(x.qs, 32 * (sub / 2)), sub % 2 == 1), DecodedOf(h, x), sub)
  {
    hide Nibbles, Load, DecodedOf, QuantIn;
    forall k | 0 <= k < 32
      ensures Nibbles(Load(x.qs, 32 * (sub / 2)), sub % 2 == 1)[k] == QuantIn(DecodedOf(h, x), sub, k)
    {
      NibbleIsQuant(h, x, sub, k);
    }
  }

  lemma NibbleIsQuant(h: Half, x: BlockQ4K, sub: nat, k: nat)
    requires x.Valid() && sub < 8 && k < 32 && DecodedOf(h, x).Valid() && 32 * (sub / 2) + 32 <= 128
    ensures Nibbles(Load(x.qs, 32 * (sub / 2)), sub % 2 == 1)[k] == QuantIn(DecodedOf(h, x), sub, k)
  {
    hide Nibbles, DecodedOf, Low, High;
    NibblesAt(Load(x.qs, 32 * (sub / 2)), sub % 2 == 1, k);
    DecodedAt(h, x, sub, k);
  }

  /** A sub-block's quads, scaled, as the multiply-adds give them. */
  ghost predicate ScaledQuadsIn(v: seq<int>, e: Decoded, y: BlockQ8K, sub: nat)
    requires e.Valid() && |y.qs| == 256 && sub < 8
  {
    |v| == 8 && forall c :: 0 <= c < 8 ==> v[c] == e.scales[sub] * Quad(e, y, sub, c)
  }

  lemma MaddLane(s: int, a: seq<int>, b: seq<int>, c: nat)
    requires |a| == |b| == 32 && c < 8
    ensures MaddWords(AllWords(s), MaddBytes(a, b))[c]
         == LaneMadd(s, a[4 * c] * b[4 * c] + a[4 * c + 1] * b[4 * c + 1], a[4 * c + 2] * b[4 * c + 2] + a[4 * c + 3] * b[4 * c + 3])
  {
    assert 2 * (2 * c) == 4 * c && 2 * (2 * c + 1) == 4 * c + 2;
  }

  lemma QuadLane(nibbles: seq<int>, e: Decoded, y: BlockQ8K, sub: nat, c: nat)
    requires e.Valid() && y.Valid() && sub < 8 && |nibbles| == 32 && QuantsOf(nibbles, e, sub) && c < 8
    ensures var a, b := nibbles, Acts(y, sub);
            LaneMadd(e.scales[sub], a[4 * c] * b[4 * c] + a[4 * c + 1] * b[4 * c + 1], a[4 * c + 2] * b[4 * c + 2] + a[4 * c + 3] * b[4 * c + 3])
            == e.scales[sub] * Quad(e, y, sub, c)
  {
    hide Quad, LaneMadd, QuantsOf, Acts;
    LaneMaddExact(e, y, sub, c);
    PairIs(nibbles, e, y, sub, 4 * c);
    PairIs(nibbles, e, y, sub, 4 * c + 2);
  }

  lemma PairIs(nibbles: seq<int>, e: Decoded, y: BlockQ8K, sub: nat, k: nat)
    requires e.Valid() && y.Valid() && sub < 8 && |nibbles| == 32 && QuantsOf(nibbles, e, sub) && k < 31
    ensures nibbles[k] * Acts(y, sub)[k] + nibbles[k + 1] * Acts(y, sub)[k + 1]
         == e.quants[32 * sub + k] * y.qs[32 * sub + k] + e.quants[32 * sub + k + 1] * y.qs[32 * sub + k + 1]
  {
    assert nibbles[k] == QuantIn(e, sub, k) && nibbles[k + 1] == QuantIn(e, sub, k + 1);
  }

  lemma MaddQuad(nibbles: seq<int>, e: Decoded, y: BlockQ8K, sub: nat, c: nat)
    requires e.Valid() && y.Valid() && sub < 8 && |nibbles| == 32 && QuantsOf(nibbles, e, sub) && c < 8
    ensures MaddWords(AllWords(e.scales[sub]), MaddBytes(nibbles, Acts(y, sub)))[c] == e.scales[sub] * Quad(e, y, sub, c)
  {
    hide Quad, LaneMadd, MaddWords, MaddBytes, AllWords, Acts, QuantsOf;
    MaddLane(e.scales[sub], nibbles, Acts(y, sub), c);
    QuadLane(nibbles, e, y, sub, c);
  }

  lemma MaddsAreQuads(nibbles: seq<int>, e: Decoded, y: BlockQ8K, sub: nat)
    requires e.Valid() && y.Valid() && sub < 8 && |nibbles| == 32 && QuantsOf(nibbles, e, sub)
    ensures ScaledQuadsIn(MaddWords(AllWords(e.scales[sub]), MaddBytes(nibbles, Acts(y, sub))), e, y, sub)
  {
    hide Quad, LaneMadd, MaddWords, MaddBytes, AllWords, Acts, QuantsOf, Wrap32, Saturate16;
    forall c | 0 <= c < 8
      ensures MaddWords(AllWords(e.scales[sub]), MaddBytes(nibbles, Acts(y, sub)))[c] == e.scales[sub] * Quad(e, y, sub, c)
    {
      MaddQuad(nibbles, e, y, sub, c);
    }
  }

  /** Eight 32-bit lanes of a half after n passes. */
  ghost predicate HalfLanes(v: seq<int>, e: Decoded, y: BlockQ8K, half: nat, n: nat)
    requires e.Valid() && |y.qs| == 256 && half < 2 && n <= 2
  {
    |v| == 8 && forall c :: 0 <= c < 8 ==> v[c] == LaneValue(e, y, 8 * half + c, n)
  }

  lemma LaneNext(e: Decoded, y: BlockQ8K, half: nat, c: nat, n: nat)
    requires e.Valid() && y.Valid() && half < 2 && c < 8 && n < 2
    ensures var sub, l := 4 * n + 2 * half, 8 * half + c;
            var low, high := e.scales[sub] * Quad(e, y, sub, c), e.scales[sub + 1] * Quad(e, y, sub + 1, c);
            LaneValue(e, y, l, n + 1) == Wrap32(Wrap32(LaneValue(e, y, l, n) + low) + high)
  {
    var sub, l := 4 * n + 2 * half, 8 * half + c;
    ContributionAt(e, y, n, half, c);
    LaneMaddExact(e, y, sub, c);
    LaneMaddExact(e, y, sub + 1, c);
    LaneValueBound(e, y, l, n);
  }

  lemma HalfNext(v: seq<int>, low: seq<int>, high: seq<int>, e: Decoded, y: BlockQ8K, half: nat, n: nat)
    requires e.Valid() && y.Valid() && half < 2 && n < 2 && HalfLanes(v, e, y, half, n)
    requires ScaledQuadsIn(low, e, y, 4 * n + 2 * half) && ScaledQuadsIn(high, e, y, 4 * n + 2 * half + 1)
    ensures HalfLanes(AddInts(AddInts(v, low), high), e, y, half, n + 1)
  {
    hide Quad, LaneValue, Wrap32;
    forall c | 0 <= c < 8 ensures AddInts(AddInts(v, low), high)[c] == LaneValue(e, y, 8 * half + c, n + 1) {
      LaneNext(e, y, half, c, n);
    }
  }

  lemma SubHalves(jj: nat, half: nat)
    requires jj < 2 && half < 2
    ensures var sub := 4 * jj + 2 * half;
            && 32 * (sub / 2) == 32 * ((sub + 1) / 2) == 64 * jj + 32 * half && sub % 2 == 0 && (sub + 1) % 2 == 1
  {
    var sub := 4 * jj + 2 * half;
    assert sub / 2 == 2 * jj + half && (sub + 1) / 2 == 2 * jj + half;
  }

  /** Packed bytes against the activations of one of the two sub-blocks they hold. */
  lemma NibbleQuads(h: Half, x: BlockQ4K, y: BlockQ8K, sub: nat, raw: seq<Byte>, v: seq<int>)
    requires x.Valid() && y.Valid() && sub < 8 && DecodedOf(h, x).Valid()
    requires 32 * (sub / 2) + 32 <= 128 && raw == x.qs[32 * (sub / 2)..32 * (sub / 2) + 32]
    requires v == MaddWords(AllWords(DecodedOf(h, x).scales[sub]), MaddBytes(Nibbles(raw, sub % 2 == 1), Acts(y, sub)))
    ensures ScaledQuadsIn(v, DecodedOf(h, x), y, sub)
  {
    hide HalfLanes, QuantsOf, ScaledQuadsIn, Nibbles, MaddWords, MaddBytes, AllWords, Acts, DecodedOf;
    NibblesAreQuants(h, x, sub);
    MaddsAreQuads(Nibbles(raw, sub % 2 == 1), DecodedOf(h, x), y, sub);
  }

  /** Half `half` of pass jj: 32 packed bytes against the activations of two sub-blocks. */
  method HalfPass(ghost h: Half, x: BlockQ4K, y: BlockQ8K, utmp: array<bv32>, jj: nat, half: nat, sumi: seq<int>) returns (next: seq<int>)
    requires x.Valid() && y.Valid() && jj < 2 && half < 2 && utmp[..] == Unpacked(x.scales)
    requires DecodedOf(h, x).Valid() && HalfLanes(sumi, DecodedOf(h, x), y, half, jj)
    ensures HalfLanes(next, DecodedOf(h, x), y, half, jj + 1)
  {
    hide HalfLanes, ScaledQuadsIn, Nibbles, MaddWords, MaddBytes, AllWords, Acts, Unpacked, DecodedOf;
    SubHalves(jj, half);
    HalfSize(sumi, DecodedOf(h, x), y, half, jj);
    var sub := 4 * jj + 2 * half;
    var raw := x.qs[64 * jj + 32 * half..64 * jj + 32 * half + 32];
    var scaleLow := UnpackedScaleInt(x, utmp, sub);
    var scaleHigh := UnpackedScaleInt(x, utmp, sub + 1);
    var low := MaddWords(AllWords(scaleLow), MaddBytes(Nibbles(raw, false), Acts(y, sub)));
    var high := MaddWords(AllWords(scaleHigh), MaddBytes(Nibbles(raw, true), Acts(y, sub + 1)));
    assert scaleLow == DecodedOf(h, x).scales[sub] && scaleHigh == DecodedOf(h, x).scales[sub + 1] by { ScalesAre(h, x, sub); }
    NibbleQuads(h, x, y, sub, raw, low);
    NibbleQuads(h, x, y, sub + 1, raw, high);
    HalfNext(sumi, low, high, DecodedOf(h, x), y, half, jj);
    next := AddInts(AddInts(sumi, low), high);
  }

  lemma ScalesAre(h: Half, x: BlockQ4K, sub: nat)
    requires x.Valid() && sub + 1 < 8
    ensures DecodedOf(h, x).scales[sub] == ScaleInt(x, sub) && DecodedOf(h, x).scales[sub + 1] == ScaleInt(x, sub + 1)
  {
  }

  lemma HalfSize(v: seq<int>, e: Decoded, y: BlockQ8K, half: nat, n: nat)
    requires e.Valid() && |y.qs| == 256 && half < 2 && n <= 2 && HalfLanes(v, e, y, half, n)
    ensures |v| == 8
  {
  }

  // ---------------------------------------------------------------- one block

  /** Sixteen 32-bit lanes that add up to the block's scaled integer dot. */
  ghost predicate BlockTotal(lanes: seq<int>, e: Decoded, y: BlockQ8K)
    requires e.Valid() && |y.qs| == 256
  {
    |lanes| == 16 && Total(lanes, 16) == ScaledTo(e, y, 8)
  }

  lemma {:induction false} TotalOfLanes(lanes: seq<int>, e: Decoded, y: BlockQ8K, m: nat)
    requires e.Valid() && |y.qs| == 256 && m <= 16 == |lanes| && forall l :: 0 <= l < 16 ==> lanes[l] == LaneValue(e, y, l, 2)
    ensures Total(lanes, m) == LanesTotal(e, y, m, 2)
  {
    if m > 0 {
      TotalOfLanes(lanes, e, y, m - 1);
    }
  }

  lemma HalvesTotal(lo: seq<int>, hi: seq<int>, e: Decoded, y: BlockQ8K)
    requires e.Valid() && |y.qs| == 256 && HalfLanes(lo, e, y, 0, 2) && HalfLanes(hi, e, y, 1, 2)
    ensures BlockTotal(lo + hi, e, y)
  {
    hide LaneValue, LanesTotal, ScaledTo, Total;
    forall l | 0 <= l < 16 ensures (lo + hi)[l] == LaneValue(e, y, l, 2) {
      if l < 8 {
        assert lo[l] == LaneValue(e, y, 8 * 0 + l, 2);
      } else {
        assert hi[l - 8] == LaneValue(e, y, 8 * 1 + (l - 8), 2);
      }
    }
    TotalOfLanes(lo + hi, e, y, 16);
    LanesAreScaled(e, y);
  }

  /** The integer part of a block: two passes over sixteen 32-bit lanes, none of which saturates or wraps. */
  method BlockLanes512(ghost h: Half, x: BlockQ4K, y: BlockQ8K, utmp: array<bv32>) returns (lanes: seq<int>)
    requires x.Valid() && y.Valid() && utmp[..] == Unpacked(x.scales)
    ensures DecodedOf(h, x).Valid() && BlockTotal(lanes, DecodedOf(h, x), y)
  {
    DecodedValid(h, x);
    hide HalfLanes, BlockTotal;
    var lo, hi := seq(8, _ => 0), seq(8, _ => 0);
    NoneYet(lo, DecodedOf(h, x), y, 0);
    NoneYet(hi, DecodedOf(h, x), y, 1);
    var jj := 0;
    while jj < 2
      invariant jj <= 2 && utmp[..] == Unpacked(x.scales)
      invariant HalfLanes(lo, DecodedOf(h, x), y, 0, jj) && HalfLanes(hi, DecodedOf(h, x), y, 1, jj)
    {
      lo := HalfPass(h, x, y, utmp, jj, 0, lo);
      hi := HalfPass(h, x, y, utmp, jj, 1, hi);
      jj := jj + 1;
    }
    HalvesTotal(lo, hi, DecodedOf(h, x), y);
    lanes := lo + hi;
  }

  lemma NoneYet(v: seq<int>, e: Decoded, y: BlockQ8K, half: nat)
    requires e.Valid() && |y.qs| == 256 && half < 2 && v == seq(8, _ => 0)
    ensures HalfLanes(v, e, y, half, 0)
  {
  }

  // ---------------------------------------------------------------- a row

  /** Each lane's integer times the block's scale, added on. */
  function FmaLanes(acc: seq<real>, lanes: seq<int>, d: real): (r: seq<real>)
    requires |acc| == |lanes| == 16
    ensures |r| == 16 && forall l :: 0 <= l < 16 ==> r[l] == acc[l] + Scaled(d, lanes[l])
  {
    seq(16, l requires 0 <= l < 16 => acc[l] + Scaled(d, lanes[l]))
  }

  function Scaled(d: real, i: int): real {
    d * i as real
  }

  lemma ScaledSum2(d: real, i: int, j: int)
    ensures Scaled(d, i + j) == Scaled(d, i) + Scaled(d, j)
  {
  }

  lemma {:induction false} FmaTotal(acc: seq<real>, lanes: seq<int>, d: real, m: nat)
    requires |acc| == |lanes| == 16 && m <= 16
    ensures SumReal(FmaLanes(acc, lanes, d), m) == SumReal(acc, m) + Scaled(d, Total(lanes, m))
  {
    hide Scaled;
    if m > 0 {
      FmaTotal(acc, lanes, d, m - 1);
      ScaledSum2(d, Total(lanes, m - 1), lanes[m - 1]);
    } else {
      ScaledNone(d);
    }
  }

  lemma ScaledNone(d: real)
    ensures Scaled(d, 0) == 0.0
  {
  }

  /** The lanes' sum and the minimum corrections together are the dot product so far. */
  ghost predicate SumsTo(acc: seq<real>, accMin: real, v: real) {
    |acc| == 16 && SumReal(acc, 16) + accMin == v
  }

  lemma {:induction false} BlockAdds(h: Half, x: BlockQ4K, y: BlockQ8K, acc: seq<real>, accMin: real, v: real, lanes: seq<int>, minSum: int)
    requires x.Valid() && y.Valid() && SumsTo(acc, accMin, v)
    requires DecodedOf(h, x).Valid() && BlockTotal(lanes, DecodedOf(h, x), y) && minSum == MinsTo(DecodedOf(h, x), y, 8)
    ensures SumsTo(FmaLanes(acc, lanes, y.d * h(x.d)), accMin + -y.d * h(x.dmin) * minSum as real, v + BlockDot(h, x, y))
  {
    hide Total, ScaledTo, MinsTo, DecodedOf, SumReal;
    FmaTotal(acc, lanes, y.d * h(x.d), 16);
    FactoredIsDot(DecodedOf(h, x), y);
  }

  method BlockStep512(h: Half, x: BlockQ4K, y: BlockQ8K, acc: seq<real>, accMin: real, ghost v: real) returns (acc': seq<real>, accMin': real)
    requires x.Valid() && y.Valid() && SumsTo(acc, accMin, v)
    ensures SumsTo(acc', accMin', v + BlockDot(h, x, y))
  {
    hide BlockTotal;
    var utmp := UnpackScales(x.scales);
    var minSum := MinSum(h, x, y, utmp);
    var lanes := BlockLanes512(h, x, y, utmp);
    BlockAdds(h, x, y, acc, accMin, v, lanes, minSum as int);
    assert |lanes| == 16 by { TotalSize(lanes, DecodedOf(h, x), y); }
    acc', accMin' := FmaLanes(acc, lanes, y.d * h(x.d)), accMin + -y.d * h(x.dmin) * (minSum as int) as real;
  }

  lemma TotalSize(lanes: seq<int>, e: Decoded, y: BlockQ8K)
    requires e.Valid() && |y.qs| == 256 && BlockTotal(lanes, e, y)
    ensures |lanes| == 16
  {
  }

  /** The sum of the lanes. */
  method ReduceAdd(v: seq<real>) returns (s: real)
    ensures s == SumReal(v, |v|)
  {
    s := 0.0;
    var i := 0;
    while i < |v|
      invariant i <= |v| && s == SumReal(v, i)
    {
      s := s + v[i];
      i := i + 1;
    }
  }

  /** The 512-bit kernel computes the dot product of the two rows, for any number of blocks. */
  method VecDotAvx512(h: Half, xs: seq<BlockQ4K>, ys: seq<BlockQ8K>) returns (v: real)
    requires ValidWeights(xs) && ValidActivations(ys) && |xs| == |ys|
    ensures v == RowDot(h, xs, ys, |xs|)
  {
    hide RowDot, BlockDot, SumsTo;
    var acc, accMin: real := seq(16, _ => 0.0), 0.0;
    NoneSummed();
    RowDotNone(h, xs, ys);
    var b := 0;
    while b < |xs|
      invariant b <= |xs| && SumsTo(acc, accMin, RowDot(h, xs, ys, b))
    {
      RowDotNext(h, xs, ys, b);
      acc, accMin := BlockStep512(h, xs[b], ys[b], acc, accMin, RowDot(h, xs, ys, b));
      b := b + 1;
    }
    var s := ReduceAdd(acc);
    SumsUp(acc, accMin, RowDot(h, xs, ys, |xs|));
    v := s + accMin;
  }

  lemma {:induction false} SumsUp(acc: seq<real>, accMin: real, v: real)
    requires SumsTo(acc, accMin, v)
    ensures SumReal(acc, |acc|) + accMin == v
  {
  }

  lemma {:induction false} SumOfZeros(n: nat)
    requires n <= 16
    ensures SumReal(seq(16, _ => 0.0), n) == 0.0
  {
    if n > 0 {
      SumOfZeros(n - 1);
    }
  }

  lemma NoneSummed()
    ensures SumsTo(seq(16, _ => 0.0), 0.0, 0.0)
  {
    SumOfZeros(16);
  }

  /** The kernel the machine allows: the 512-bit one where there is one, the scalar one elsewhere. */
  method VecDot(h: Half, xs: seq<BlockQ4K>, ys: seq<BlockQ8K>, wide: bool) returns (v: real)
    requires ValidWeights(xs) && ValidActivations(ys) && |xs| == |ys|
    ensures v == RowDot(h, xs, ys, |xs|)
  {
    if wide {
      v := VecDotAvx512(h, xs, ys);
    } else {
      v := VecDotScalar(h, xs, ys);
    }
  }

  // ---------------------------------------------------------------- matrix product

  /** Cell (row, col) of the product. */
  ghost predicate CellOk(h: Half, weights: seq<BlockQ4K>, activations: seq<BlockQ8K>, v: real, nb: nat, row: nat, col: nat)
    requires ValidWeights(weights) && ValidActivations(activations)
  {
    && col * nb <= (col + 1) * nb <= |weights| && row * nb <= (row + 1) * nb <= |activations|
    && (col + 1) * nb - col * nb == nb && (row + 1) * nb - row * nb == nb
    && v == RowDot(h, weights[col * nb..(col + 1) * nb], activations[row * nb..(row + 1) * nb], nb)
  }

  /** The flat index of a cell. */
  function At(n: nat, row: nat, col: nat): nat {
    row * n + col
  }

  /** Every output cell is the dot of its activation row and its weight row, whichever kernel the machine allows. */
  method Matmul(h: Half, weights: seq<BlockQ4K>, activations: seq<BlockQ8K>, output: array<real>, nOut: nat, nb: nat, m: nat, wide: bool)
    requires ValidWeights(weights) && ValidActivations(activations)
    requires |weights| == nOut * nb && |activations| == m * nb && output.Length == m * nOut
    modifies output
    ensures forall row: nat, col: nat :: row < m && col < nOut ==>
        At(nOut, row, col) < output.Length && CellOk(h, weights, activations, output[At(nOut, row, col)], nb, row, col)
  {
    var col := 0;
    while col < nOut
      invariant col <= nOut
      invariant forall r: nat, c: nat :: r < m && c < col ==>
          At(nOut, r, c) < output.Length && CellOk(h, weights, activations, output[At(nOut, r, c)], nb, r, c)
    {
      MatmulColumn(h, weights, activations, output, nOut, nb, m, col, wide);
      col := col + 1;
    }
  }

  /** One weight row against every activation row; other columns keep their cells. */
  method MatmulColumn(h: Half, weights: seq<BlockQ4K>, activations: seq<BlockQ8K>, output: array<real>, nOut: nat, nb: nat, m: nat, col: nat,
                      wide: bool)
    requires ValidWeights(weights) && ValidActivations(activations) && col < nOut
    requires |weights| == nOut * nb && |activations| == m * nb && output.Length == m * nOut
    modifies output
    ensures forall r: nat :: r < m ==>
        At(nOut, r, col) < output.Length && CellOk(h, weights, activations, output[At(nOut, r, col)], nb, r, col)
    ensures forall r: nat, c: nat :: r < m && c < nOut && c != col ==>
        At(nOut, r, c) < output.Length && output[At(nOut, r, c)] == old(output[At(nOut, r, c)])
  {
    hide CellOk;
    Slice(nOut, nb, col);
    CellsInside(m, nOut);
    var w := weights[col * nb..(col + 1) * nb];
    var row := 0;
    while row < m
      invariant row <= m
      invariant forall r: nat :: r < row ==> CellOk(h, weights, activations, output[At(nOut, r, col)], nb, r, col)
      invariant forall r: nat, c: nat :: r < m && c < nOut && c != col ==> output[At(nOut, r, c)] == old(output[At(nOut, r, c)])
    {
      var v := MatmulCell(h, weights, activations, w, nOut, nb, m, row, col, wide);
      CellsApart(nOut, row, col);
      output[At(nOut, row, col)] := v;
      row := row + 1;
    }
  }

  /** One cell: a weight row against an activation row. */
  method MatmulCell(h: Half, weights: seq<BlockQ4K>, activations: seq<BlockQ8K>, w: seq<BlockQ4K>, nOut: nat, nb: nat, m: nat, row: nat, col: nat,
                    wide: bool) returns (v: real)
    requires ValidWeights(weights) && ValidActivations(activations) && col < nOut && row < m
    requires |weights| == nOut * nb && |activations| == m * nb
    requires 0 <= col * nb <= (col + 1) * nb <= |weights| && w == weights[col * nb..(col + 1) * nb]
    ensures CellOk(h, weights, activations, v, nb, row, col)
  {
    Slice(nOut, nb, col);
    Slice(m, nb, row);
    v := VecDot(h, w, activations[row * nb..(row + 1) * nb], wide);
  }

  lemma Slice(n: nat, nb: nat, i: nat)
    requires i < n
    ensures 0 <= i * nb <= (i + 1) * nb <= n * nb && (i + 1) * nb - i * nb == nb
  {
    Monotone(i + 1, n, nb);
  }

  lemma Monotone(a: nat, b: nat, c: nat)
    requires a <= b
    ensures a * c <= b * c
  {
  }

  lemma CellsInside(m: nat, n: nat)
    ensures forall r: nat, c: nat :: r < m && c < n ==> At(n, r, c) < m * n
  {
    forall r: nat, c: nat | r < m && c < n ensures At(n, r, c) < m * n {
      Monotone(r + 1, m, n);
    }
  }

  lemma CellsApart(n: nat, row: nat, col: nat)
    requires col < n
    ensures forall r: nat, c: nat :: c < n && !(r == row && c == col) ==> At(n, r, c) != At(n, row, col)
  {
    forall r: nat, c: nat | c < n && !(r == row && c == col) ensures At(n, r, c) != At(n, row, col) {
      if r < row {
        Monotone(r + 1, row, n);
      } else if row < r {
        Monotone(row + 1, r, n);
      }
    }
  }
}
