/**
 The CPU transformer with one KV cache per layer: rectangular causal masks, cached forwards over
 several tokens, and truncation. A forward over a chunk, against whatever prefix is cached, computes
 what one forward over the whole sequence would.
 */
module Transformer {
  import opened Wrappers
  import opened KvModel

  /** The bits of a hidden state, and of one position's K and V rows in one layer. */
  type Hidden = nat
  type KvRow = nat

  /** Weights: everything here is arbitrary. `block` is one layer, given the rows it may attend, in order. */
  datatype Network = Network(
    nLayers: nat,
    maxSeq: nat,
    embed: Token -> Hidden,
    kvRow: (nat, Hidden, nat) -> KvRow,
    block: (nat, Hidden, nat, seq<KvRow>) -> Hidden,
    head: Hidden -> seq<real>)

  // ---------------------------------------------------------------- the reference network

  /** The input of layer l at position p: position p attends exactly positions 0..p. */
  function HiddenAt(net: Network, ctx: seq<Token>, l: nat, p: nat): Hidden
    requires p < |ctx|
    decreases l, 0, 0
  {
    if l == 0 then net.embed(ctx[p])
    else net.block(l - 1, HiddenAt(net, ctx, l - 1, p), p, RowsTo(net, ctx, l - 1, p + 1))
  }

  /** Layer l's K and V rows for the first k positions. */
  function RowsTo(net: Network, ctx: seq<Token>, l: nat, k: nat): (rows: seq<KvRow>)
    requires k <= |ctx|
    ensures |rows| == k
    decreases l, 1, k
  {
    if k == 0 then [] else RowsTo(net, ctx, l, k - 1) + [net.kvRow(l, HiddenAt(net, ctx, l, k - 1), k - 1)]
  }

  /** The logits after a non-empty context. */
  function Logits(net: Network, ctx: seq<Token>): seq<real>
    requires ctx != []
  {
    net.head(HiddenAt(net, ctx, net.nLayers, |ctx| - 1))
  }

  /** Causality: nothing at a position depends on later tokens. */
  lemma {:induction false} HiddenPrefix(net: Network, a: seq<Token>, b: seq<Token>, l: nat, p: nat)
    requires p < |a| && a <= b
    ensures HiddenAt(net, b, l, p) == HiddenAt(net, a, l, p)
    decreases l, 0, 0
  {
    if l > 0 {
      HiddenPrefix(net, a, b, l - 1, p);
      RowsPrefix(net, a, b, l - 1, p + 1);
    }
  }

  lemma {:induction false} RowsPrefix(net: Network, a: seq<Token>, b: seq<Token>, l: nat, k: nat)
    requires k <= |a| && a <= b
    ensures RowsTo(net, b, l, k) == RowsTo(net, a, l, k)
    decreases l, 1, k
  {
    if k > 0 {
      RowsPrefix(net, a, b, l, k - 1);
      HiddenPrefix(net, a, b, l, k - 1);
    }
  }

  /** The first k rows are a prefix of any more. */
  lemma {:induction false} RowsCut(net: Network, ctx: seq<Token>, l: nat, k: nat, n: nat)
    requires k <= n <= |ctx|
    ensures RowsTo(net, ctx, l, n)[..k] == RowsTo(net, ctx, l, k)
  {
    if k < n {
      RowsCut(net, ctx, l, k, n - 1);
      assert RowsTo(net, ctx, l, n)[..k] == RowsTo(net, ctx, l, n - 1)[..k];
    }
  }

  // ---------------------------------------------------------------- masks

  type Mask = seq<seq<bool>>

  /** Query row i may not attend key column j when the key comes later. */
  function CausalMask(seqLen: nat, indexPos: nat): (m: Mask)
    ensures |m| == seqLen && forall i :: 0 <= i < seqLen ==> |m[i]| == indexPos + seqLen
    ensures forall i, j :: 0 <= i < seqLen && 0 <= j < indexPos + seqLen ==> (m[i][j] <==> j > indexPos + i)
  {
    seq(seqLen, i requires 0 <= i < seqLen => seq(indexPos + seqLen, j requires 0 <= j < indexPos + seqLen => j > indexPos + i))
  }

  /** The first n rows that a mask row lets through. */
  function Visible(rows: seq<KvRow>, masked: seq<bool>, n: nat): seq<KvRow>
    requires n <= |rows| == |masked|
  {
    if n == 0 then [] else Visible(rows, masked, n - 1) + (if masked[n - 1] then [] else [rows[n - 1]])
  }

  /** A causal row lets exactly the positions up to its own through. */
  lemma {:induction false} CausalVisible(rows: seq<KvRow>, masked: seq<bool>, k: nat, n: nat)
    requires n <= |rows| == |masked| && forall j :: 0 <= j < |masked| ==> (masked[j] <==> j >= k)
    ensures Visible(rows, masked, n) == rows[..Min(k, n)]
  {
    if n > 0 {
      CausalVisible(rows, masked, k, n - 1);
    }
  }

  // ---------------------------------------------------------------- the cached forward

  /** The inputs of layer l at the positions from `from` on. */
  ghost function HiddensFrom(net: Network, ctx: seq<Token>, from: nat, l: nat): (h: seq<Hidden>)
    requires from <= |ctx|
    ensures |h| == |ctx| - from
    ensures forall i :: 0 <= i < |h| ==> h[i] == HiddenAt(net, ctx, l, from + i)
  {
    seq<Hidden>(|ctx| - from, i requires 0 <= i < |ctx| - from => HiddenAt(net, ctx, l, from + i))
  }

  /** The new positions' rows of layer l, computed from its inputs. */
  function NewRows(net: Network, l: nat, x: seq<Hidden>, from: nat): (rows: seq<KvRow>)
    ensures |rows| == |x| && forall i :: 0 <= i < |x| ==> rows[i] == net.kvRow(l, x[i], from + i)
  {
    seq(|x|, i requires 0 <= i < |x| => net.kvRow(l, x[i], from + i))
  }

  lemma {:induction false} RowsGrow(net: Network, ctx: seq<Token>, from: nat, l: nat, x: seq<Hidden>, n: nat)
    requires from <= |ctx| && x == HiddensFrom(net, ctx, from, l) && n <= |x|
    ensures RowsTo(net, ctx, l, from) + NewRows(net, l, x, from)[..n] == RowsTo(net, ctx, l, from + n)
  {
    if n > 0 {
      RowsGrow(net, ctx, from, l, x, n - 1);
      var rows := NewRows(net, l, x, from);
      assert rows[..n] == rows[..n - 1] + [rows[n - 1]];
    }
  }

  lemma {:induction false} RowsGrown(net: Network, ctx: seq<Token>, from: nat, l: nat, x: seq<Hidden>)
    requires from <= |ctx| && x == HiddensFrom(net, ctx, from, l)
    ensures RowsTo(net, ctx, l, from) + NewRows(net, l, x, from) == RowsTo(net, ctx, l, |ctx|)
  {
    RowsGrow(net, ctx, from, l, x, |x|);
    assert NewRows(net, l, x, from)[..|x|] == NewRows(net, l, x, from);
  }

  /** The rows new position i attends: all of the cache when there is no mask. */
  function Attends(cache: seq<KvRow>, mask: Option<Mask>, i: nat): seq<KvRow>
    requires mask.Some? ==> i < |mask.value| && |mask.value[i]| == |cache|
  {
    if mask.None? then cache else Visible(cache, mask.value[i], |cache|)
  }

  /** Whatever prefix is cached, the mask lets position i see exactly the positions up to its own. */
  lemma AttendsCausal(net: Network, ctx: seq<Token>, l: nat, from: nat, mask: Option<Mask>, i: nat)
    requires from + i < |ctx| && mask == if |ctx| == from + 1 then None else Some(CausalMask(|ctx| - from, from))
    ensures Attends(RowsTo(net, ctx, l, |ctx|), mask, i) == RowsTo(net, ctx, l, from + i + 1)
  {
    var rows := RowsTo(net, ctx, l, |ctx|);
    RowsCut(net, ctx, l, from + i + 1, |ctx|);
    if mask.Some? {
      CausalVisible(rows, mask.value[i], from + i + 1, |ctx|);
    }
  }

  /** One more output of layer l. */
  lemma NextHidden(net: Network, ctx: seq<Token>, from: nat, l: nat, mask: Option<Mask>, i: nat)
    requires from + i < |ctx| && mask == if |ctx| == from + 1 then None else Some(CausalMask(|ctx| - from, from))
    ensures var y := HiddensFrom(net, ctx, from, l + 1);
            var x := HiddensFrom(net, ctx, from, l);
            y[..i] + [net.block(l, x[i], from + i, Attends(RowsTo(net, ctx, l, |ctx|), mask, i))] == y[..i + 1]
  {
    AttendsCausal(net, ctx, l, from, mask, i);
    var y := HiddensFrom(net, ctx, from, l + 1);
    assert y[..i + 1] == y[..i] + [y[i]];
  }

  /** Layers below l have the rows of all of `c`, the others those of its prefix `ctx`. */
  ghost predicate Filled(net: Network, caches: seq<seq<KvRow>>, ctx: seq<Token>, c: seq<Token>, l: nat) {
    && |caches| == net.nLayers
    && forall i {:trigger caches[i]} :: 0 <= i < net.nLayers ==>
        caches[i] == if i < l then RowsTo(net, c, i, |c|) else RowsTo(net, ctx, i, |ctx|)
  }

  lemma {:induction false} FillNext(net: Network, caches: seq<seq<KvRow>>, ctx: seq<Token>, c: seq<Token>, l: nat)
    requires Filled(net, caches, ctx, c, l) && l < net.nLayers && ctx <= c
    ensures caches[l] == RowsTo(net, c, l, |ctx|)
    ensures Filled(net, caches[l := RowsTo(net, c, l, |c|)], ctx, c, l + 1)
  {
    RowsPrefix(net, ctx, c, l, |ctx|);
  }

  class ModelWeights {
    const net: Network
    var caches: seq<seq<KvRow>>
    var masks: map<(nat, nat), Mask>

    /** The tokens whose rows are cached, in every layer. */
    ghost var ctx: seq<Token>

    ghost predicate Valid()
      reads this
    {
      && |caches| == net.nLayers
      && (forall l :: 0 <= l < net.nLayers ==> caches[l] == RowsTo(net, ctx, l, |ctx|))
      && MasksOk()
    }

    /** A remembered mask is the one its key calls for: the prefix length is their difference. */
    ghost predicate MasksOk()
      reads this
    {
      forall key :: key in masks ==> key.0 <= key.1 && masks[key] == CausalMask(key.0, key.1 - key.0)
    }

    constructor Load(net: Network)
      ensures Valid() && this.net == net && ctx == []
    {
      this.net := net;
      caches := seq(net.nLayers, _ => []);
      masks := map[];
      ctx := [];
    }

    method MaskFor(seqLen: nat, indexPos: nat) returns (m: Mask)
      requires MasksOk()
      modifies this`masks
      ensures MasksOk() && m == CausalMask(seqLen, indexPos) && (seqLen, indexPos + seqLen) in masks
    {
      var kvLen := indexPos + seqLen;
      if (seqLen, kvLen) in masks {
        return masks[(seqLen, kvLen)];
      }
      m := CausalMask(seqLen, indexPos);
      masks := masks[(seqLen, kvLen) := m];
    }

    method ClearKvCache()
      requires Valid()
      modifies this`caches, this`ctx
      ensures Valid() && ctx == []
    {
      var l := 0;
      while l < |caches|
        invariant l <= |caches| == net.nLayers
        invariant forall i :: 0 <= i < l ==> caches[i] == []
      {
        caches := caches[l := []];
        l := l + 1;
      }
      ctx := [];
    }

    /** Keeps the first n positions of every layer; with n or fewer cached this changes nothing. */
    method TruncateKvCache(n: nat)
      requires Valid()
      modifies this`caches, this`ctx
      ensures Valid() && ctx == old(ctx)[..Min(n, |old(ctx)|)]
    {
      ghost var c := ctx[..Min(n, |ctx|)];
      ghost var was := caches;
      var l := 0;
      while l < |caches|
        invariant l <= |caches| == net.nLayers && ctx == old(ctx)
        invariant forall i :: l <= i < net.nLayers ==> caches[i] == was[i]
        invariant forall i :: 0 <= i < l ==> caches[i] == RowsTo(net, c, i, |c|)
      {
        RowsCut(net, ctx, l, |c|, |ctx|);
        RowsPrefix(net, c, ctx, l, |c|);
        assert was[l] == RowsTo(net, ctx, l, |ctx|);
        if n < |caches[l]| {
          if n == 0 {
            caches := caches[l := []];
          } else {
            var keep := caches[l][..n];
            caches := caches[l := []];
            caches := caches[l := caches[l] + keep];
          }
        }
        l := l + 1;
      }
      ctx := c;
    }

    /**
     One layer over the new positions: appends their rows to the layer's cache and attends, per
     position, the rows the mask lets through; a single position needs no mask.
     */
    method ForwardLayer(l: nat, x: seq<Hidden>, mask: Option<Mask>, indexPos: nat, ghost c: seq<Token>) returns (y: seq<Hidden>)
      requires l < |caches| == net.nLayers && indexPos < |c| && x == HiddensFrom(net, c, indexPos, l)
      requires caches[l] == RowsTo(net, c, l, indexPos)
      requires mask == if |x| == 1 then None else Some(CausalMask(|x|, indexPos))
      modifies this`caches
      ensures caches == old(caches)[l := RowsTo(net, c, l, |c|)]
      ensures y == HiddensFrom(net, c, indexPos, l + 1)
    {
      RowsGrown(net, c, indexPos, l, x);
      caches := caches[l := caches[l] + NewRows(net, l, x, indexPos)];
      y := [];
      var i := 0;
      while i < |x|
        invariant i <= |x| && caches == old(caches)[l := RowsTo(net, c, l, |c|)]
        invariant y == HiddensFrom(net, c, indexPos, l + 1)[..i]
      {
        NextHidden(net, c, indexPos, l, mask, i);
        y := y + [net.block(l, x[i], indexPos + i, Attends(caches[l], mask, i))];
        i := i + 1;
      }
    }

    /**
     Runs every layer over the new tokens. Fails, changing nothing, when they leave the context
     window. Otherwise the last layer's outputs are the reference ones and every cache has grown.
     */
    method RunLayers(x: seq<Token>, indexPos: nat) returns (r: Option<seq<Hidden>>)
      requires Valid() && indexPos == |ctx| && x != []
      modifies this
      ensures Valid()
      ensures r.Some? <==> indexPos + |x| <= net.maxSeq || net.nLayers == 0
      ensures ctx == if r.Some? then old(ctx) + x else old(ctx)
      ensures r.Some? ==> r.value == HiddensFrom(net, ctx, indexPos, net.nLayers)
    {
      ghost var c := ctx + x;
      var mask := None;
      if |x| != 1 {
        var m := MaskFor(|x|, indexPos);
        mask := Some(m);
      }
      if net.nLayers > 0 && indexPos + |x| > net.maxSeq {
        return None;
      }
      var h := seq<Hidden>(|x|, i requires 0 <= i < |x| => net.embed(x[i]));
      var l := 0;
      while l < net.nLayers
        invariant l <= net.nLayers && MasksOk() && ctx == old(ctx)
        invariant h == HiddensFrom(net, c, indexPos, l) && Filled(net, caches, ctx, c, l)
      {
        FillNext(net, caches, ctx, c, l);
        h := ForwardLayer(l, h, mask, indexPos, c);
        l := l + 1;
      }
      ctx := c;
      return Some(h);
    }

    /** Logits at the last new position only. */
    method ForwardWithCallback(x: seq<Token>, indexPos: nat) returns (r: Option<seq<real>>)
      requires Valid() && indexPos == |ctx| && x != []
      modifies this
      ensures Valid()
      ensures r.Some? <==> indexPos + |x| <= net.maxSeq || net.nLayers == 0
      ensures ctx == if r.Some? then old(ctx) + x else old(ctx)
      ensures r.Some? ==> r.value == Logits(net, ctx)
    {
      var h := RunLayers(x, indexPos);
      if h.None? {
        return None;
      }
      return Some(net.head(h.value[|x| - 1]));
    }

    /** Logits at every new position. */
    method ForwardAllPositions(x: seq<Token>, indexPos: nat) returns (r: Option<seq<seq<real>>>)
      requires Valid() && indexPos == |ctx| && x != []
      modifies this
      ensures Valid()
      ensures r.Some? <==> indexPos + |x| <= net.maxSeq || net.nLayers == 0
      ensures ctx == if r.Some? then old(ctx) + x else old(ctx)
      ensures r.Some? ==> |r.value| == |x| && forall i :: 0 <= i < |x| ==> r.value[i] == Logits(net, old(ctx) + x[..i + 1])
    {
      var h := RunLayers(x, indexPos);
      if h.None? {
        return None;
      }
      forall i | 0 <= i < |x| ensures net.head(h.value[i]) == Logits(net, old(ctx) + x[..i + 1]) {
        assert old(ctx) + x[..i + 1] <= ctx;
        HiddenPrefix(net, old(ctx) + x[..i + 1], ctx, net.nLayers, indexPos + i);
      }
      return Some(seq(|x|, i requires 0 <= i < |h.value| => net.head(h.value[i])));
    }
  }
}
