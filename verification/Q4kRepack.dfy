/** The repacking loops: byte arrays filled in place, proved against the layouts. */
module Q4kRepack {
  import opened Wrappers
  import opened Q4kLayout

  const INTERLEAVE: nat := 8

  /** Interleaves the quant bytes: chunk i of eight bytes comes from block i % 8. */
  method RepackQs(input: seq<BlockQ4K>) returns (qs: array<Byte>)
    requires Eight(input)
    ensures fresh(qs) && qs.Length == 1024 && forall k :: 0 <= k < 1024 ==> qs[k] == QsByte(input, k)
  {
    qs := new Byte[1024];
    var i := 0;
    while i < 128
      invariant i <= 128
      invariant forall k :: 0 <= k < 8 * i ==> qs[k] == QsByte(input, k)
    {
      var srcId, srcOffset, dstOffset := i % 8, i / 8 * INTERLEAVE, i * INTERLEAVE;
      var t := 0;
      while t < 8
        invariant t <= 8
        invariant forall k :: 0 <= k < 8 * i + t ==> qs[k] == QsByte(input, k)
      {
        ChunkIndex(i, t);
        qs[dstOffset + t] := input[srcId].qs[srcOffset + t];
        t := t + 1;
      }
      i := i + 1;
    }
  }

  lemma ChunkIndex(i: nat, t: nat)
    requires i < 128 && t < 8
    ensures var k := i * 8 + t;
            k / 8 % 8 == i % 8 && k / 64 * 8 + k % 8 == i / 8 * 8 + t
  {
    assert (i * 8 + t) / 8 == i && (i * 8 + t) % 8 == t;
    assert (i * 8 + t) / 64 == (i * 8 + t) / 8 / 8;
  }

  /** The bit tricks of the packing loop are the block encoding. */
  lemma PackBits(a: Byte, b: Byte)
    ensures (a & 63) | ((b & 48) << 2) == SixAndTwo(a, b)
    ensures (a & 15) | ((b & 15) << 4) == FourAndFour(a, b)
  {
    assert (b & 48) << 2 == (b >> 4) << 6;
  }

  /** Writes the twelve scale bytes of one sub-block of all rows. */
  method PackRow(scales: array<Byte>, base: nat, s: seq<Byte>, m: seq<Byte>)
    requires base + 12 <= scales.Length && |s| == 8 && |m| == 8
    modifies scales
    ensures forall k :: 0 <= k < 12 ==> scales[base + k] == StdByte(s, m, k)
    ensures forall k :: 0 <= k < scales.Length && !(base <= k < base + 12) ==> scales[k] == old(scales[k])
  {
    var r := 0;
    while r < 4
      invariant r <= 4
      invariant forall k :: 0 <= k < r ==> scales[base + k] == StdByte(s, m, k)
      invariant forall k :: 4 <= k < 4 + r ==> scales[base + k] == StdByte(s, m, k)
      invariant forall k :: 8 <= k < 8 + r ==> scales[base + k] == StdByte(s, m, k)
      invariant forall k :: 0 <= k < scales.Length && !(base <= k < base + 12) ==> scales[k] == old(scales[k])
    {
      PackBits(s[r], s[r + 4]);
      PackBits(m[r], m[r + 4]);
      PackBits(s[r + 4], m[r + 4]);
      scales[base + r] := (s[r] & 63) | ((s[r + 4] & 48) << 2);
      scales[base + 4 + r] := (m[r] & 63) | ((m[r + 4] & 48) << 2);
      scales[base + 8 + r] := (s[r + 4] & 15) | ((m[r + 4] & 15) << 4);
      r := r + 1;
    }
  }

  /** Gathers sub-scale and sub-min sb of the eight rows. */
  method Gather(input: seq<BlockQ4K>, sb: nat) returns (s: seq<Byte>, m: seq<Byte>)
    requires Eight(input) && sb < 8
    ensures s == ScalesAt(input, sb) && m == MinsAt(input, sb)
  {
    s, m := [], [];
    while |s| < 8
      invariant |s| == |m| <= 8
      invariant forall r :: 0 <= r < |s| ==> s[r] == ScaleOf(sb, input[r].scales) && m[r] == MinOf(sb, input[r].scales)
    {
      var b := input[|s|].scales;
      if sb < 4 {
        s, m := s + [b[sb] & 63], m + [b[sb + 4] & 63];
      } else {
        var i := sb - 4;
        s, m := s + [((b[i] & 192) >> 2) | (b[i + 8] & 15)], m + [((b[i + 4] & 192) >> 2) | ((b[i + 8] & 240) >> 4)];
      }
    }
  }

  method RepackScales(input: seq<BlockQ4K>) returns (scales: array<Byte>)
    requires Eight(input)
    ensures fresh(scales) && scales.Length == 96 && forall k :: 0 <= k < 96 ==> scales[k] == PackedByte(input, k)
  {
    scales := new Byte[96];
    var sb := 0;
    while sb < 8
      invariant sb <= 8
      invariant forall k :: 0 <= k < 12 * sb ==> scales[k] == PackedByte(input, k)
    {
      var s, m := Gather(input, sb);
      PackRow(scales, 12 * sb, s, m);
      forall k | 12 * sb <= k < 12 * sb + 12 ensures scales[k] == PackedByte(input, k) {
        DivMod(sb, k - 12 * sb);
        assert scales[12 * sb + (k - 12 * sb)] == StdByte(s, m, k - 12 * sb);
      }
      sb := sb + 1;
    }
  }

  /** Eight blocks into one interleaved block. */
  method RepackQ4kToQ4kx8(input: seq<BlockQ4K>) returns (out: BlockQ4Kx8)
    requires Eight(input)
    ensures out == Repacked(input)
  {
    var qs := RepackQs(input);
    var scales := RepackScales(input);
    out := BlockQ4Kx8(seq(8, r requires 0 <= r < 8 => input[r].d), seq(8, r requires 0 <= r < 8 => input[r].dmin),
                      scales[..], qs[..]);
    assert out.scales == Repacked(input).scales && out.qs == Repacked(input).qs;
  }

  // ---------------------------------------------------------------- the way back

  /** Scale byte k once the first n sub-blocks have been written back. */
  function AfterByte(s: seq<Byte>, m: seq<Byte>, n: nat, k: nat): Byte
    requires |s| == 8 && |m| == 8 && k < 12
  {
    if k < 4 then (if n <= k then 0 else if n <= k + 4 then s[k] & 0x3F else SixAndTwo(s[k], s[k + 4]))
    else if k < 8 then (if n <= k - 4 then 0 else if n <= k then m[k - 4] & 0x3F else SixAndTwo(m[k - 4], m[k]))
    else if n <= k - 4 then 0 else FourAndFour(s[k - 4], m[k - 4])
  }

  /** Writes sub-block sb's scale and min into a block's scale bytes. */
  function WriteSub(bytes: seq<Byte>, sb: nat, ls: Byte, lm: Byte): (out: seq<Byte>)
    requires |bytes| == 12 && sb < 8
    ensures |out| == 12
  {
    if sb < 4 then
      bytes[sb := (bytes[sb] & 0xC0) | (ls & 0x3F)][sb + 4 := (bytes[sb + 4] & 0xC0) | (lm & 0x3F)]
    else
      bytes[sb + 4 := (ls & 0x0F) | ((lm & 0x0F) << 4)][sb - 4 := (bytes[sb - 4] & 0x3F) | ((ls >> 4) << 6)]
           [sb := (bytes[sb] & 0x3F) | ((lm >> 4) << 6)]
  }

  lemma FreshByte(a: Byte)
    ensures (0 & 0xC0) | (a & 0x3F) == a & 0x3F
  {
  }

  lemma TopUp(a: Byte, b: Byte)
    ensures ((a & 0x3F) & 0x3F) | ((b >> 4) << 6) == SixAndTwo(a, b)
  {
  }

  /** The bytes after n sub-blocks. */
  ghost predicate WrittenTo(bytes: seq<Byte>, s: seq<Byte>, m: seq<Byte>, n: nat) {
    |bytes| == 12 && |s| == 8 && |m| == 8 && forall k :: 0 <= k < 12 ==> bytes[k] == AfterByte(s, m, n, k)
  }

  lemma WriteLow(bytes: seq<Byte>, s: seq<Byte>, m: seq<Byte>, n: nat, k: nat)
    requires WrittenTo(bytes, s, m, n) && n < 4 && k < 12
    ensures WriteSub(bytes, n, s[n], m[n])[k] == AfterByte(s, m, n + 1, k)
  {
    if k == n {
      FreshByte(s[n]);
    } else if k == n + 4 {
      FreshByte(m[n]);
    }
  }

  lemma WriteHigh(bytes: seq<Byte>, s: seq<Byte>, m: seq<Byte>, n: nat, k: nat)
    requires WrittenTo(bytes, s, m, n) && 4 <= n < 8 && k < 12
    ensures WriteSub(bytes, n, s[n], m[n])[k] == AfterByte(s, m, n + 1, k)
  {
    if k == n - 4 {
      TopUp(s[n - 4], s[n]);
    } else if k == n {
      TopUp(m[n - 4], m[n]);
    }
  }

  lemma WriteStep(bytes: seq<Byte>, s: seq<Byte>, m: seq<Byte>, n: nat)
    requires WrittenTo(bytes, s, m, n) && n < 8
    ensures WrittenTo(WriteSub(bytes, n, s[n], m[n]), s, m, n + 1)
  {
    forall k | 0 <= k < 12 ensures WriteSub(bytes, n, s[n], m[n])[k] == AfterByte(s, m, n + 1, k) {
      if n < 4 {
        WriteLow(bytes, s, m, n, k);
      } else {
        WriteHigh(bytes, s, m, n, k);
      }
    }
  }

  /** Decodes one sub-block's scales and mins of all eight rows from twelve interleaved bytes. */
  method UnpackRow(row: seq<Byte>) returns (s: seq<Byte>, m: seq<Byte>)
    requires |row| == 12
    ensures |s| == |m| == 8 && forall r :: 0 <= r < 8 ==> s[r] == ScaleOf(r, row) && m[r] == MinOf(r, row)
  {
    s, m := [], [];
    while |s| < 4
      invariant |s| == |m| <= 4
      invariant forall r :: 0 <= r < |s| ==> s[r] == ScaleOf(r, row) && m[r] == MinOf(r, row)
    {
      var r := |s|;
      s, m := s + [row[r] & 0x3F], m + [row[4 + r] & 0x3F];
    }
    while |s| < 8
      invariant 4 <= |s| == |m| <= 8
      invariant forall r :: 0 <= r < |s| ==> s[r] == ScaleOf(r, row) && m[r] == MinOf(r, row)
    {
      var r := |s|;
      var upperS, lowerS := (row[r - 4] & 0xC0) >> 2, row[8 + (r - 4)] & 0x0F;
      var upperM, lowerM := (row[4 + (r - 4)] & 0xC0) >> 2, (row[8 + (r - 4)] & 0xF0) >> 4;
      s, m := s + [upperS | lowerS], m + [upperM | lowerM];
    }
  }

  /** The eight rows' scale bytes. */
  method ReverseScales(rp: BlockQ4Kx8) returns (out: seq<seq<Byte>>)
    requires rp.Valid()
    ensures |out| == 8 && forall r :: 0 <= r < 8 ==> out[r] == Extracted(rp, r).scales
  {
    out := seq(8, _ => seq(12, _ => 0));
    var sb := 0;
    while sb < 8
      invariant sb <= 8 && |out| == 8
      invariant forall r :: 0 <= r < 8 ==> WrittenTo(out[r], RowScales(rp, r), RowMins(rp, r), sb)
    {
      var s, m := UnpackRow(RowOf(rp, sb));
      ghost var before := out;
      var r := 0;
      while r < 8
        invariant r <= 8 && |out| == 8
        invariant forall i :: 0 <= i < r ==> WrittenTo(out[i], RowScales(rp, i), RowMins(rp, i), sb + 1)
        invariant forall i :: r <= i < 8 ==> out[i] == before[i]
      {
        WriteStep(out[r], RowScales(rp, r), RowMins(rp, r), sb);
        out := out[r := WriteSub(out[r], sb, s[r], m[r])];
        r := r + 1;
      }
      sb := sb + 1;
    }
  }

  /** Row r's quant bytes, copied out chunk by chunk. */
  method ReverseQs(rp: BlockQ4Kx8, r: nat) returns (qs: array<Byte>)
    requires rp.Valid() && r < 8
    ensures fresh(qs) && qs.Length == 128 && forall p :: 0 <= p < 128 ==> qs[p] == Extracted(rp, r).qs[p]
  {
    qs := new Byte[128];
    var chunk := 0;
    while chunk < 16
      invariant chunk <= 16
      invariant forall p :: 0 <= p < 8 * chunk ==> qs[p] == Extracted(rp, r).qs[p]
    {
      var dst := (chunk * 8 + r) * INTERLEAVE;
      var t := 0;
      while t < 8
        invariant t <= 8
        invariant forall p :: 0 <= p < 8 * chunk + t ==> qs[p] == Extracted(rp, r).qs[p]
      {
        assert (8 * chunk + t) / 8 == chunk && (8 * chunk + t) % 8 == t;
        qs[8 * chunk + t] := rp.qs[dst + t];
        t := t + 1;
      }
      chunk := chunk + 1;
    }
  }

  /** One interleaved block back into eight. */
  method ReverseRepackQ4kx8(rp: BlockQ4Kx8) returns (out: seq<BlockQ4K>)
    requires rp.Valid()
    ensures out == Reversed(rp)
  {
    var scales := ReverseScales(rp);
    out := [];
    while |out| < 8
      invariant |out| <= 8
      invariant forall r :: 0 <= r < |out| ==> out[r] == Extracted(rp, r)
    {
      var r := |out|;
      var qs := ReverseQs(rp, r);
      var b := BlockQ4K(rp.d[r], rp.dmin[r], scales[r], qs[..]);
      assert b.qs == Extracted(rp, r).qs;
      out := out + [b];
    }
  }
}
