/**
 The arithmetic of quantised dot products on decoded integers: the factored form equals dequantising
 every weight first, in exact arithmetic, and every partial sum fits its machine width.
 */
module Q4kMath {
  import opened Wrappers

  newtype i16 = x: int | -0x8000 <= x < 0x8000
  newtype i32 = x: int | -0x8000_0000 <= x < 0x8000_0000

  /** 256 signed 8-bit activations with their scale and the sums of each 16. */
  datatype BlockQ8K = BlockQ8K(d: real, qs: seq<int>, bsums: seq<int>)
  {
    ghost predicate Valid() {
      && |qs| == 256 && |bsums| == 16
      && (forall i :: 0 <= i < 256 ==> -128 <= qs[i] <= 127)
      && (forall g :: 0 <= g < 16 ==> bsums[g] == SumQ(qs, 16 * g, 16))
    }
  }

  /** The sum of n quants from `from` on. */
  function SumQ(qs: seq<int>, from: nat, n: nat): int
    requires from + n <= |qs|
  {
    if n == 0 then 0 else SumQ(qs, from, n - 1) + qs[from + n - 1]
  }

  lemma {:induction false} SumQSplit(qs: seq<int>, from: nat, a: nat, b: nat)
    requires from + a + b <= |qs|
    ensures SumQ(qs, from, a + b) == SumQ(qs, from, a) + SumQ(qs, from + a, b)
  {
    if b > 0 {
      SumQSplit(qs, from, a, b - 1);
    }
  }

  lemma {:induction false} SumQBound(qs: seq<int>, from: nat, n: nat)
    requires from + n <= |qs| && forall i :: 0 <= i < |qs| ==> -128 <= qs[i] <= 127
    ensures -128 * n <= SumQ(qs, from, n) <= 127 * n
  {
    if n > 0 {
      SumQBound(qs, from, n - 1);
    }
  }

  /** The group sums written by the activation quantiser; each fits 16 bits. */
  method GroupSums(qs: seq<int>) returns (bsums: array<i16>)
    requires |qs| == 256 && forall i :: 0 <= i < 256 ==> -128 <= qs[i] <= 127
    ensures fresh(bsums) && bsums.Length == 16
    ensures forall g :: 0 <= g < 16 ==> bsums[g] as int == SumQ(qs, 16 * g, 16)
  {
    bsums := new i16[16];
    var g := 0;
    while g < 16
      invariant g <= 16
      invariant forall h :: 0 <= h < g ==> bsums[h] as int == SumQ(qs, 16 * h, 16)
    {
      var s: i32 := 0;
      var k := 0;
      while k < 16
        invariant k <= 16 && s as int == SumQ(qs, 16 * g, k)
        invariant forall h :: 0 <= h < g ==> bsums[h] as int == SumQ(qs, 16 * h, 16)
      {
        SumQBound(qs, 16 * g, k);
        s := s + qs[16 * g + k] as i32;
        k := k + 1;
      }
      SumQBound(qs, 16 * g, 16);
      bsums[g] := s as int as i16;
      g := g + 1;
    }
  }

  /** A weight block as numbers: real scales, 6-bit sub-scales and sub-mins, 4-bit quants. */
  datatype Decoded = Decoded(d: real, dmin: real, scales: seq<int>, mins: seq<int>, quants: seq<int>)
  {
    ghost predicate Valid() {
      && |scales| == 8 && |mins| == 8 && |quants| == 256
      && (forall j :: 0 <= j < 8 ==> 0 <= scales[j] <= 63)
      && (forall j :: 0 <= j < 8 ==> 0 <= mins[j] <= 63)
      && (forall i :: 0 <= i < 256 ==> 0 <= quants[i] <= 15)
    }
  }

  /** The real weight that quant i stands for. */
  ghost function Weight(x: Decoded, i: nat): real
    requires x.Valid() && i < 256
  {
    WeightOf(Times(x.d, x.scales[i / 32]), Times(x.dmin, x.mins[i / 32]), x.quants[i])
  }

  function Times(a: real, n: int): real {
    a * n as real
  }

  /** A quant scaled, less the minimum. */
  function WeightOf(d: real, m: real, q: int): real {
    d * q as real - m
  }

  /** All 256 weights. */
  ghost function Weights(x: Decoded): (w: seq<real>)
    requires x.Valid()
    ensures |w| == 256
  {
    seq(256, i requires 0 <= i < 256 => Weight(x, i))
  }

  /** The weights of a sub-block share its scale and minimum. */
  lemma WeightsAt(x: Decoded, sub: nat, k: nat)
    requires x.Valid() && sub < 8 && k < 32
    ensures Weights(x)[32 * sub + k] == WeightOf(Times(x.d, x.scales[sub]), Times(x.dmin, x.mins[sub]), x.quants[32 * sub + k])
  {
    assert (32 * sub + k) / 32 == sub;
  }

  /** One more product, the activation scale kept outside. */
  lemma DotStep(x: Decoded, y: BlockQ8K, i: nat, s: real, w: real, s': real)
    requires x.Valid() && |y.qs| == 256 && i < 256 && Times2(s, y.d) == DotTo(x, y, i)
    requires w == Weights(x)[i] && s' == s + Times(w, y.qs[i])
    ensures Times2(s', y.d) == DotTo(x, y, i + 1)
  {
    OneMore(s, w, y.d, y.qs[i]);
  }

  function Times2(a: real, b: real): real {
    a * b
  }

  lemma OneMore(s: real, w: real, yd: real, q: int)
    ensures Times2(s + Times(w, q), yd) == Times2(s, yd) + Scaled(w, yd, q)
  {
  }

  /** A dequantised weight times a dequantised activation. */
  ghost function Product(x: Decoded, y: BlockQ8K, i: nat): real
    requires x.Valid() && |y.qs| == 256 && i < 256
  {
    Scaled(Weight(x, i), y.d, y.qs[i])
  }

  function Scaled(w: real, yd: real, q: int): real {
    w * (yd * q as real)
  }

  /** Dequantise, then dot: the first n products. */
  ghost function DotTo(x: Decoded, y: BlockQ8K, n: nat): real
    requires x.Valid() && |y.qs| == 256 && n <= 256
  {
    if n == 0 then 0.0 else DotTo(x, y, n - 1) + Product(x, y, n - 1)
  }

  ghost function Dot(x: Decoded, y: BlockQ8K): real
    requires x.Valid() && |y.qs| == 256
  {
    DotTo(x, y, 256)
  }

  // ---------------------------------------------------------------- the factored form

  /** Integer dot of n quants of one sub-block. */
  ghost function SubDot(x: Decoded, y: BlockQ8K, sub: nat, n: nat): int
    requires x.Valid() && |y.qs| == 256 && sub < 8 && n <= 32
  {
    if n == 0 then 0 else SubDot(x, y, sub, n - 1) + x.quants[32 * sub + n - 1] * y.qs[32 * sub + n - 1]
  }

  /** Scaled integer dots of the first n sub-blocks. */
  ghost function ScaledTo(x: Decoded, y: BlockQ8K, n: nat): int
    requires x.Valid() && |y.qs| == 256 && n <= 8
  {
    if n == 0 then 0 else ScaledTo(x, y, n - 1) + x.scales[n - 1] * SubDot(x, y, n - 1, 32)
  }

  /** Sub-mins against activation sums. */
  ghost function MinsTo(x: Decoded, y: BlockQ8K, n: nat): int
    requires x.Valid() && |y.bsums| == 16 && n <= 8
  {
    if n == 0 then 0 else MinsTo(x, y, n - 1) + x.mins[n - 1] * (y.bsums[2 * (n - 1)] + y.bsums[2 * (n - 1) + 1])
  }

  ghost function Factored(x: Decoded, y: BlockQ8K): real
    requires x.Valid() && |y.qs| == 256 && |y.bsums| == 16
  {
    Assembled(x.d, x.dmin, y.d, ScaledTo(x, y, 8), MinsTo(x, y, 8))
  }

  /** A block's value from its two integers. */
  function Assembled(d: real, dmin: real, yd: real, sumi: int, minSum: int): real {
    -yd * dmin * minSum as real + yd * d * sumi as real
  }

  /** v is a times an integer less b times another. Folded. */
  ghost predicate IsLin(v: real, a: real, b: real, i: int, j: int) {
    forall n :: Unfold(n) ==> v == a * i as real - b * j as real
  }

  lemma LinAdd(v: real, w: real, a: real, b: real, i: int, j: int, k: int, l: int)
    requires IsLin(v, a, b, i, j) && IsLin(w, a, b, k, l)
    ensures IsLin(v + w, a, b, i + k, j + l)
  {
    assert Unfold(0);
    assert a * (i + k) as real == a * i as real + a * k as real;
    assert b * (j + l) as real == b * j as real + b * l as real;
  }

  /** One dequantised product. */
  lemma TermLin(hd: real, hm: real, yd: real, s: int, m: int, n: int, q: int)
    ensures IsLin((hd * s as real * n as real - hm * m as real) * (yd * q as real), yd * hd, yd * hm, s * (n * q), m * q)
  {
    assert (s * (n * q)) as real == s as real * (n as real * q as real) by { assert (n * q) as real == n as real * q as real; }
    assert (m * q) as real == m as real * q as real;
    TermReal(hd, hm, yd, s as real, m as real, n as real, q as real);
  }

  lemma TermReal(hd: real, hm: real, yd: real, s: real, m: real, n: real, q: real)
    ensures (hd * s * n - hm * m) * (yd * q) == (yd * hd) * (s * (n * q)) - (yd * hm) * (m * q)
  {
    assert (hd * s * n - hm * m) * (yd * q) == hd * s * n * (yd * q) - hm * m * (yd * q);
    assert hd * s * n * (yd * q) == (yd * hd) * (s * (n * q));
    assert hm * m * (yd * q) == (yd * hm) * (m * q);
  }

  /** The integer part of a dequantised product that the scale multiplies, and the one the minimum does. */
  ghost function ScaleTerm(x: Decoded, y: BlockQ8K, i: nat): int
    requires x.Valid() && |y.qs| == 256 && i < 256
  {
    x.scales[i / 32] * (x.quants[i] * y.qs[i])
  }

  ghost function MinTerm(x: Decoded, y: BlockQ8K, i: nat): int
    requires x.Valid() && |y.qs| == 256 && i < 256
  {
    x.mins[i / 32] * y.qs[i]
  }

  ghost function ScaleTerms(x: Decoded, y: BlockQ8K, n: nat): int
    requires x.Valid() && |y.qs| == 256 && n <= 256
  {
    if n == 0 then 0 else ScaleTerms(x, y, n - 1) + ScaleTerm(x, y, n - 1)
  }

  ghost function MinTerms(x: Decoded, y: BlockQ8K, n: nat): int
    requires x.Valid() && |y.qs| == 256 && n <= 256
  {
    if n == 0 then 0 else MinTerms(x, y, n - 1) + MinTerm(x, y, n - 1)
  }

  lemma ProductLin(x: Decoded, y: BlockQ8K, i: nat)
    requires x.Valid() && |y.qs| == 256 && i < 256
    ensures IsLin(Product(x, y, i), y.d * x.d, y.d * x.dmin, ScaleTerm(x, y, i), MinTerm(x, y, i))
  {
    TermLin(x.d, x.dmin, y.d, x.scales[i / 32], x.mins[i / 32], x.quants[i], y.qs[i]);
  }

  lemma {:induction false} DotLin(x: Decoded, y: BlockQ8K, n: nat)
    requires x.Valid() && |y.qs| == 256 && n <= 256
    ensures IsLin(DotTo(x, y, n), y.d * x.d, y.d * x.dmin, ScaleTerms(x, y, n), MinTerms(x, y, n))
  {
    if n > 0 {
      DotLin(x, y, n - 1);
      ProductLin(x, y, n - 1);
      LinAdd(DotTo(x, y, n - 1), Product(x, y, n - 1), y.d * x.d, y.d * x.dmin,
             ScaleTerms(x, y, n - 1), MinTerms(x, y, n - 1), ScaleTerm(x, y, n - 1), MinTerm(x, y, n - 1));
    }
  }

  lemma Distribute(s: int, d: int, t: int)
    ensures s * (d + t) == s * d + s * t
  {
  }

  lemma {:induction false} TermsOfSub(x: Decoded, y: BlockQ8K, sub: nat, k: nat)
    requires x.Valid() && |y.qs| == 256 && sub < 8 && k <= 32
    ensures ScaleTerms(x, y, 32 * sub + k) == ScaleTerms(x, y, 32 * sub) + x.scales[sub] * SubDot(x, y, sub, k)
    ensures MinTerms(x, y, 32 * sub + k) == MinTerms(x, y, 32 * sub) + x.mins[sub] * SumQ(y.qs, 32 * sub, k)
  {
    if k > 0 {
      TermsOfSub(x, y, sub, k - 1);
      var i := 32 * sub + k - 1;
      assert i / 32 == sub;
      Distribute(x.scales[sub], SubDot(x, y, sub, k - 1), x.quants[i] * y.qs[i]);
      Distribute(x.mins[sub], SumQ(y.qs, 32 * sub, k - 1), y.qs[i]);
    }
  }

  lemma {:induction false} TermsTo(x: Decoded, y: BlockQ8K, n: nat)
    requires x.Valid() && y.Valid() && n <= 8
    ensures ScaleTerms(x, y, 32 * n) == ScaledTo(x, y, n) && MinTerms(x, y, 32 * n) == MinsTo(x, y, n)
  {
    if n > 0 {
      TermsTo(x, y, n - 1);
      TermsOfSub(x, y, n - 1, 32);
      SubSum(y, n - 1);
    }
  }

  lemma {:induction false} SubSum(y: BlockQ8K, sub: nat)
    requires y.Valid() && sub < 8
    ensures SumQ(y.qs, 32 * sub, 32) == y.bsums[2 * sub] + y.bsums[2 * sub + 1]
  {
    SumQSplit(y.qs, 32 * sub, 16, 16);
    PairSum(y, sub);
  }

  lemma {:induction false} PairSum(y: BlockQ8K, sub: nat)
    requires y.Valid() && sub < 8
    ensures SumQ(y.qs, 32 * sub, 16) == y.bsums[2 * sub] && SumQ(y.qs, 32 * sub + 16, 16) == y.bsums[2 * sub + 1]
  {
    assert 16 * (2 * sub) == 32 * sub && 16 * (2 * sub + 1) == 32 * sub + 16;
  }

  /** The factored integer form is the dequantised dot, given that the sums are the group sums. */
  lemma FactoredIsDot(x: Decoded, y: BlockQ8K)
    requires x.Valid() && y.Valid()
    ensures Factored(x, y) == Dot(x, y)
  {
    WholeLin(x, y);
    LinFactored(Dot(x, y), x.d, x.dmin, y.d, ScaledTo(x, y, 8), MinsTo(x, y, 8));
  }

  lemma {:induction false} WholeLin(x: Decoded, y: BlockQ8K)
    requires x.Valid() && y.Valid()
    ensures IsLin(Dot(x, y), y.d * x.d, y.d * x.dmin, ScaledTo(x, y, 8), MinsTo(x, y, 8))
  {
    DotLin(x, y, 256);
    TermsTo(x, y, 8);
  }

  lemma LinFactored(v: real, hd: real, hm: real, yd: real, i: int, j: int)
    requires IsLin(v, yd * hd, yd * hm, i, j)
    ensures Assembled(hd, hm, yd, i, j) == v
  {
    assert Unfold(0);
    assert -yd * hm * j as real == -(yd * hm * j as real);
  }

  // ---------------------------------------------------------------- bounds

  lemma ProductBound(n: int, q: int)
    requires 0 <= n <= 15 && -128 <= q <= 127
    ensures -1920 <= n * q <= 1905
  {
  }

  lemma {:induction false} SubDotBound(x: Decoded, y: BlockQ8K, sub: nat, n: nat)
    requires x.Valid() && y.Valid() && sub < 8 && n <= 32
    ensures -1920 * n <= SubDot(x, y, sub, n) <= 1905 * n
  {
    if n > 0 {
      SubDotBound(x, y, sub, n - 1);
      ProductBound(x.quants[32 * sub + n - 1], y.qs[32 * sub + n - 1]);
    }
  }

  lemma ScaledBound(s: int, v: int, c: int)
    requires 0 <= s <= 63 && -c <= v <= c
    ensures -63 * c <= s * v <= 63 * c
  {
  }

  lemma {:induction false} ScaledToBound(x: Decoded, y: BlockQ8K, n: nat)
    requires x.Valid() && y.Valid() && n <= 8
    ensures -3870720 * n <= ScaledTo(x, y, n) <= 3870720 * n
  {
    if n > 0 {
      ScaledToBound(x, y, n - 1);
      SubDotBound(x, y, n - 1, 32);
      ScaledBound(x.scales[n - 1], SubDot(x, y, n - 1, 32), 61440);
    }
  }

  lemma SumBoundOf(y: BlockQ8K, g: nat)
    requires y.Valid() && g < 16
    ensures -2048 <= y.bsums[g] <= 2032
  {
    SumQBound(y.qs, 16 * g, 16);
  }

  lemma {:induction false} MinsToBound(x: Decoded, y: BlockQ8K, n: nat)
    requires x.Valid() && y.Valid() && n <= 8
    ensures -258048 * n <= MinsTo(x, y, n) <= 258048 * n
  {
    if n > 0 {
      MinsToBound(x, y, n - 1);
      SumBoundOf(y, 2 * (n - 1));
      SumBoundOf(y, 2 * (n - 1) + 1);
      ScaledBound(x.mins[n - 1], y.bsums[2 * (n - 1)] + y.bsums[2 * (n - 1) + 1], 4096);
    }
  }

  // ---------------------------------------------------------------- vector lanes

  /** Saturation to 16 bits, as the multiply-add of unsigned and signed byte pairs does. */
  function Saturate16(v: int): (r: int)
    ensures -0x8000 <= r <= 0x7fff
    ensures -0x8000 <= v <= 0x7fff ==> r == v
    ensures (v > 0x7fff ==> r == 0x7fff) && (v < -0x8000 ==> r == -0x8000)
  {
    if v > 0x7fff then 0x7fff else if v < -0x8000 then -0x8000 else v
  }

  /** Wrap-around to 16 bits, as lane addition does. */
  function Wrap16(v: int): (r: int)
    ensures -0x8000 <= r <= 0x7fff
    ensures -0x8000 <= v <= 0x7fff ==> r == v
  {
    (v + 0x8000) % 0x10000 - 0x8000
  }

  function Wrap32(v: int): (r: int)
    ensures -0x8000_0000 <= r <= 0x7fff_ffff
    ensures -0x8000_0000 <= v <= 0x7fff_ffff ==> r == v
  {
    (v + 0x8000_0000) % 0x1_0000_0000 - 0x8000_0000
  }

  /** Wrapping changes a value by a multiple of two to the width. */
  lemma WrapsAround(v: int)
    ensures (v - Wrap16(v)) % 0x1_0000 == 0 && (v - Wrap32(v)) % 0x1_0000_0000 == 0
  {
    assert v - Wrap16(v) == (v + 0x8000) / 0x1_0000 * 0x1_0000;
    assert v - Wrap32(v) == (v + 0x8000_0000) / 0x1_0000_0000 * 0x1_0000_0000;
  }

  /** A 16-bit lane after n multiply-adds of two products each. */
  function LaneAcc(q4: seq<int>, q8: seq<int>, n: nat): int
    requires |q4| == |q8| && 2 * n <= |q4|
  {
    if n == 0 then 0
    else Wrap16(LaneAcc(q4, q8, n - 1) + Saturate16(q4[2 * n - 2] * q8[2 * n - 2] + q4[2 * n - 1] * q8[2 * n - 1]))
  }

  function PairDot(q4: seq<int>, q8: seq<int>, n: nat): int
    requires |q4| == |q8| && 2 * n <= |q4|
  {
    if n == 0 then 0
    else PairDot(q4, q8, n - 1) + (q4[2 * n - 2] * q8[2 * n - 2] + q4[2 * n - 1] * q8[2 * n - 1])
  }

  /** Up to eight multiply-adds neither saturate nor wrap: the lane holds the exact sum, at most 30720 in size. */
  lemma {:induction false} LaneExact(q4: seq<int>, q8: seq<int>, n: nat)
    requires |q4| == |q8| && 2 * n <= |q4| && n <= 8
    requires forall i :: 0 <= i < |q4| ==> 0 <= q4[i] <= 15 && -128 <= q8[i] <= 127
    ensures LaneAcc(q4, q8, n) == PairDot(q4, q8, n) && -3840 * n <= PairDot(q4, q8, n) <= 3840 * n
  {
    if n > 0 {
      LaneExact(q4, q8, n - 1);
      ProductBound(q4[2 * n - 2], q8[2 * n - 2]);
      ProductBound(q4[2 * n - 1], q8[2 * n - 1]);
    }
  }

  /** Four consecutive products of a sub-block. */
  ghost function Quad(x: Decoded, y: BlockQ8K, sub: nat, c: nat): int
    requires x.Valid() && |y.qs| == 256 && sub < 8 && c < 8
  {
    SubDot(x, y, sub, 4 * c + 4) - SubDot(x, y, sub, 4 * c)
  }

  /** What pass jj adds to 32-bit lane l: a low-nibble and a high-nibble sub-block. */
  ghost function Contribution(x: Decoded, y: BlockQ8K, jj: nat, l: nat): int
    requires x.Valid() && |y.qs| == 256 && jj < 2 && l < 16
  {
    var sub := 4 * jj + 2 * (l / 8);
    x.scales[sub] * Quad(x, y, sub, l % 8) + x.scales[sub + 1] * Quad(x, y, sub + 1, l % 8)
  }

  /** Lane l after n passes. */
  ghost function LaneValue(x: Decoded, y: BlockQ8K, l: nat, n: nat): int
    requires x.Valid() && |y.qs| == 256 && n <= 2 && l < 16
  {
    if n == 0 then 0 else LaneValue(x, y, l, n - 1) + Contribution(x, y, n - 1, l)
  }

  /** What pass jj adds to each lane. */
  ghost function Contributions(x: Decoded, y: BlockQ8K, jj: nat): (v: seq<int>)
    requires x.Valid() && |y.qs| == 256 && jj < 2
    ensures |v| == 16
  {
    seq(16, l requires 0 <= l < 16 => Contribution(x, y, jj, l))
  }

  ghost function Total(v: seq<int>, n: nat): int
    requires n <= |v|
  {
    if n == 0 then 0 else Total(v, n - 1) + v[n - 1]
  }

  /** The first m lanes' share of pass jj. */
  ghost function PassTotal(x: Decoded, y: BlockQ8K, jj: nat, m: nat): int
    requires x.Valid() && |y.qs| == 256 && jj < 2 && m <= 16
  {
    Total(Contributions(x, y, jj), m)
  }

  lemma ContributionAt(x: Decoded, y: BlockQ8K, jj: nat, half: nat, c: nat)
    requires x.Valid() && |y.qs| == 256 && jj < 2 && half < 2 && c < 8
    ensures var sub := 4 * jj + 2 * half;
            Contribution(x, y, jj, 8 * half + c) == x.scales[sub] * Quad(x, y, sub, c) + x.scales[sub + 1] * Quad(x, y, sub + 1, c)
  {
    assert (8 * half + c) / 8 == half && (8 * half + c) % 8 == c;
  }

  /** A scaled sub-block dot grows by a scaled quad. */
  lemma {:induction false} ScaledQuad(x: Decoded, y: BlockQ8K, sub: nat, c: nat)
    requires x.Valid() && |y.qs| == 256 && sub < 8 && c < 8
    ensures x.scales[sub] * SubDot(x, y, sub, 4 * c + 4)
         == x.scales[sub] * SubDot(x, y, sub, 4 * c) + x.scales[sub] * Quad(x, y, sub, c)
  {
    Distribute(x.scales[sub], SubDot(x, y, sub, 4 * c), Quad(x, y, sub, c));
  }

  /** A sub-block's quads, scaled. */
  ghost function ScaledQuads(x: Decoded, y: BlockQ8K, sub: nat): (v: seq<int>)
    requires x.Valid() && |y.qs| == 256 && sub < 8
    ensures |v| == 8
  {
    seq(8, c requires 0 <= c < 8 => x.scales[sub] * Quad(x, y, sub, c))
  }

  lemma {:induction false} ScaledQuadsSum(x: Decoded, y: BlockQ8K, sub: nat, m: nat)
    requires x.Valid() && |y.qs| == 256 && sub < 8 && m <= 8
    ensures Total(ScaledQuads(x, y, sub), m) == x.scales[sub] * SubDot(x, y, sub, 4 * m)
  {
    if m > 0 {
      ScaledQuadsSum(x, y, sub, m - 1);
      ScaledQuad(x, y, sub, m - 1);
    } else {
      assert SubDot(x, y, sub, 0) == 0;
    }
  }

  lemma ContributionIs(x: Decoded, y: BlockQ8K, jj: nat, half: nat, c: nat)
    requires x.Valid() && |y.qs| == 256 && jj < 2 && half < 2 && c < 8
    ensures var sub := 4 * jj + 2 * half;
            Contribution(x, y, jj, 8 * half + c) == ScaledQuads(x, y, sub)[c] + ScaledQuads(x, y, sub + 1)[c]
  {
    ContributionAt(x, y, jj, half, c);
  }

  lemma {:induction false} TotalOfSums(c: seq<int>, a: seq<int>, b: seq<int>, from: nat, m: nat)
    requires from + |a| <= |c| && |a| == |b| && m <= |a| && forall i :: 0 <= i < |a| ==> c[from + i] == a[i] + b[i]
    ensures Total(c, from + m) == Total(c, from) + Total(a, m) + Total(b, m)
  {
    if m > 0 {
      TotalOfSums(c, a, b, from, m - 1);
    }
  }

  lemma PassHalf(x: Decoded, y: BlockQ8K, jj: nat, half: nat)
    requires x.Valid() && |y.qs| == 256 && jj < 2 && half < 2
    ensures PassTotal(x, y, jj, 8 * half + 8) == PassTotal(x, y, jj, 8 * half)
            + Total(ScaledQuads(x, y, 4 * jj + 2 * half), 8) + Total(ScaledQuads(x, y, 4 * jj + 2 * half + 1), 8)
  {
    hide Contribution, Quad;
    var c, a, b := Contributions(x, y, jj), ScaledQuads(x, y, 4 * jj + 2 * half), ScaledQuads(x, y, 4 * jj + 2 * half + 1);
    forall i | 0 <= i < 8 ensures c[8 * half + i] == a[i] + b[i] {
      ContributionIs(x, y, jj, half, i);
    }
    TotalOfSums(c, a, b, 8 * half, 8);
  }

  /** A pass in terms of its four sub-blocks. */
  lemma PassParts(x: Decoded, y: BlockQ8K, jj: nat)
    requires x.Valid() && |y.qs| == 256 && jj < 2
    ensures PassTotal(x, y, jj, 16)
         == Total(ScaledQuads(x, y, 4 * jj), 8) + Total(ScaledQuads(x, y, 4 * jj + 1), 8)
            + Total(ScaledQuads(x, y, 4 * jj + 2), 8) + Total(ScaledQuads(x, y, 4 * jj + 3), 8)
  {
    PassHalf(x, y, jj, 0);
    PassHalf(x, y, jj, 1);
  }

  lemma ScaledNext(x: Decoded, y: BlockQ8K, sub: nat)
    requires x.Valid() && |y.qs| == 256 && sub < 8
    ensures ScaledTo(x, y, sub + 1) == ScaledTo(x, y, sub) + Total(ScaledQuads(x, y, sub), 8)
  {
    ScaledQuadsSum(x, y, sub, 8);
  }

  /** The four sub-blocks of a pass. */
  lemma {:induction false} PassIs(x: Decoded, y: BlockQ8K, jj: nat)
    requires x.Valid() && |y.qs| == 256 && jj < 2
    ensures ScaledTo(x, y, 4 * jj + 4) == ScaledTo(x, y, 4 * jj) + PassTotal(x, y, jj, 16)
  {
    PassParts(x, y, jj);
    ScaledNext(x, y, 4 * jj);
    ScaledNext(x, y, 4 * jj + 1);
    ScaledNext(x, y, 4 * jj + 2);
    ScaledNext(x, y, 4 * jj + 3);
  }

  /** The sum of the first m lanes after n passes. */
  ghost function LanesTotal(x: Decoded, y: BlockQ8K, m: nat, n: nat): int
    requires x.Valid() && |y.qs| == 256 && n <= 2 && m <= 16
  {
    if m == 0 then 0 else LanesTotal(x, y, m - 1, n) + LaneValue(x, y, m - 1, n)
  }

  lemma {:induction false} LanesPass(x: Decoded, y: BlockQ8K, m: nat, n: nat)
    requires x.Valid() && |y.qs| == 256 && 0 < n <= 2 && m <= 16
    ensures LanesTotal(x, y, m, n) == LanesTotal(x, y, m, n - 1) + PassTotal(x, y, n - 1, m)
  {
    if m > 0 {
      LanesPass(x, y, m - 1, n);
    }
  }

  lemma {:induction false} LanesNone(x: Decoded, y: BlockQ8K, m: nat)
    requires x.Valid() && |y.qs| == 256 && m <= 16
    ensures LanesTotal(x, y, m, 0) == 0
  {
    if m > 0 {
      LanesNone(x, y, m - 1);
    }
  }

  /** Adding up the sixteen lanes gives the scaled integer dot of the whole block. */
  lemma {:induction false} LanesAreScaled(x: Decoded, y: BlockQ8K)
    requires x.Valid() && |y.qs| == 256
    ensures LanesTotal(x, y, 16, 2) == ScaledTo(x, y, 8)
  {
    LanesPass(x, y, 16, 2);
    LanesPass(x, y, 16, 1);
    LanesNone(x, y, 16);
    PassIs(x, y, 0);
    PassIs(x, y, 1);
    assert ScaledTo(x, y, 0) == 0;
  }

  lemma QuadBound(x: Decoded, y: BlockQ8K, sub: nat, c: nat)
    requires x.Valid() && y.Valid() && sub < 8 && c < 8
    ensures var k := 32 * sub + 4 * c;
            var p := x.quants[k] * y.qs[k] + x.quants[k + 1] * y.qs[k + 1];
            var q := x.quants[k + 2] * y.qs[k + 2] + x.quants[k + 3] * y.qs[k + 3];
            Quad(x, y, sub, c) == p + q && -3840 <= p <= 3840 && -3840 <= q <= 3840
  {
    var k := 32 * sub + 4 * c;
    ProductBound(x.quants[k], y.qs[k]);
    ProductBound(x.quants[k + 1], y.qs[k + 1]);
    ProductBound(x.quants[k + 2], y.qs[k + 2]);
    ProductBound(x.quants[k + 3], y.qs[k + 3]);
    SubDotStep(x, y, sub, 4 * c);
    SubDotStep(x, y, sub, 4 * c + 1);
    SubDotStep(x, y, sub, 4 * c + 2);
    SubDotStep(x, y, sub, 4 * c + 3);
  }

  lemma SubDotStep(x: Decoded, y: BlockQ8K, sub: nat, n: nat)
    requires x.Valid() && |y.qs| == 256 && sub < 8 && n < 32
    ensures SubDot(x, y, sub, n + 1) == SubDot(x, y, sub, n) + x.quants[32 * sub + n] * y.qs[32 * sub + n]
  {
  }

  /** Saturating pair products, scaled and added in 32 bits: one lane's share of one sub-block. */
  function LaneMadd(scale: int, p: int, q: int): int {
    Wrap32(scale * Saturate16(p) + scale * Saturate16(q))
  }

  lemma LaneMaddExact(x: Decoded, y: BlockQ8K, sub: nat, c: nat)
    requires x.Valid() && y.Valid() && sub < 8 && c < 8
    ensures var k := 32 * sub + 4 * c;
            LaneMadd(x.scales[sub], x.quants[k] * y.qs[k] + x.quants[k + 1] * y.qs[k + 1],
                     x.quants[k + 2] * y.qs[k + 2] + x.quants[k + 3] * y.qs[k + 3])
            == x.scales[sub] * Quad(x, y, sub, c)
    ensures -483840 <= x.scales[sub] * Quad(x, y, sub, c) <= 483840
  {
    QuadBound(x, y, sub, c);
    var k := 32 * sub + 4 * c;
    var p, q := x.quants[k] * y.qs[k] + x.quants[k + 1] * y.qs[k + 1], x.quants[k + 2] * y.qs[k + 2] + x.quants[k + 3] * y.qs[k + 3];
    Distribute(x.scales[sub], p, q);
    ScaledBound(x.scales[sub], p, 3840);
    ScaledBound(x.scales[sub], q, 3840);
  }

  lemma {:induction false} LaneValueBound(x: Decoded, y: BlockQ8K, l: nat, n: nat)
    requires x.Valid() && y.Valid() && n <= 2 && l < 16
    ensures -967680 * n <= LaneValue(x, y, l, n) <= 967680 * n
  {
    if n > 0 {
      LaneValueBound(x, y, l, n - 1);
      var sub := 4 * (n - 1) + 2 * (l / 8);
      LaneMaddExact(x, y, sub, l % 8);
      LaneMaddExact(x, y, sub + 1, l % 8);
    }
  }
}
