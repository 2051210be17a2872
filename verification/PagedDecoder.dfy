/**
 The paged KV pool of the batched decoder: reference-counted 16-position blocks shared by all
 slots, a cross-request prefix cache over full blocks, and the decode and prefill forwards that
 read and write KV through each slot's block list.

 The ghost field `ctx` names, for every slot, the token context whose KV is resident in it.
 Every method is specified by its effect on `ctx`; `Valid` ties `ctx` to the physical blocks.
 */
module PagedDecoder {
  import opened Wrappers
  import opened KvModel

  const BLOCK: nat := 16
  const PREFILL_CHUNK: nat := 128

  /** Blocks needed for n positions. */
  function Blocks(n: nat): nat {
    (n + BLOCK - 1) / BLOCK
  }

  /** The fewest blocks of sixteen positions that hold n. */
  lemma BlocksHold(n: nat)
    ensures n <= 16 * Blocks(n) && (Blocks(n) > 0 ==> 16 * (Blocks(n) - 1) < n)
  {
  }

  /** One decoded row: `token` is written at `pos` of `slot`, which then attends 0..pos. */
  datatype Row = Row(token: Token, pos: nat, slot: nat)

  /** A slot's KV copied to host memory: `nb` whole blocks covering `nPos` positions. */
  datatype HostKv = HostKv(nPos: nat, nb: nat, blocks: seq<seq<Entry>>)

  // ---------------------------------------------------------------- resident contexts

  /** Writing at `pos` keeps the context below `pos` and forgets anything staler above it. */
  ghost function FeedRow(ctx: seq<seq<Token>>, r: Row): (c: seq<seq<Token>>)
    ensures |c| == |ctx|
  {
    if r.slot < |ctx| && r.pos <= |ctx[r.slot]| then ctx[r.slot := ctx[r.slot][..r.pos] + [r.token]] else ctx
  }

  /** The contexts after the first n rows. */
  ghost function FeedRows(ctx: seq<seq<Token>>, rows: seq<Row>, n: nat): (c: seq<seq<Token>>)
    requires n <= |rows|
    ensures |c| == |ctx|
  {
    if n == 0 then ctx else FeedRow(FeedRows(ctx, rows, n - 1), rows[n - 1])
  }

  /** Row i lands inside its slot's resident context, above its shared blocks, within the window. */
  ghost predicate RowFits(ctx: seq<seq<Token>>, shared: seq<nat>, maxSeq: nat, rows: seq<Row>, i: nat)
    requires |shared| == |ctx| && i < |rows|
  {
    && rows[i].slot < |ctx|
    && BLOCK * shared[rows[i].slot] <= rows[i].pos <= |FeedRows(ctx, rows, i)[rows[i].slot]|
    && rows[i].pos < maxSeq
  }

  ghost predicate Feedable(ctx: seq<seq<Token>>, shared: seq<nat>, maxSeq: nat, rows: seq<Row>)
    requires |shared| == |ctx|
  {
    forall i {:trigger RowFits(ctx, shared, maxSeq, rows, i)} :: 0 <= i < |rows| ==> RowFits(ctx, shared, maxSeq, rows, i)
  }

  /** What row i attends: its slot's context once rows 0..i are in. */
  ghost function Attended(ctx: seq<seq<Token>>, rows: seq<Row>, i: nat): seq<Token>
    requires i < |rows| && rows[i].slot < |ctx|
  {
    FeedRows(ctx, rows, i + 1)[rows[i].slot]
  }

  /** The states returned so far are what the first rows attend. */
  ghost predicate StatesOk(m: Model, ctx: seq<seq<Token>>, rows: seq<Row>, states: seq<seq<Entry>>) {
    && |states| <= |rows|
    && forall j :: 0 <= j < |states| ==>
        rows[j].slot < |ctx| && states[j] == KvOf(m, Attended(ctx, rows, j))
  }

  lemma {:induction false} StatesExtend(m: Model, ctx: seq<seq<Token>>, rows: seq<Row>, states: seq<seq<Entry>>, state: seq<Entry>)
    requires StatesOk(m, ctx, rows, states) && |states| < |rows|
    requires rows[|states|].slot < |ctx| && state == KvOf(m, Attended(ctx, rows, |states|))
    ensures StatesOk(m, ctx, rows, states + [state])
  {
  }

  /** Blocks held once a row's position has a block. */
  ghost function GrowRow(held: seq<nat>, r: Row): (h: seq<nat>)
    ensures |h| == |held|
  {
    if r.slot < |held| then held[r.slot := Max(held[r.slot], Blocks(r.pos + 1))] else held
  }

  /** Blocks held per slot after making room for the first n rows. */
  ghost function Grow(held: seq<nat>, rows: seq<Row>, n: nat): (h: seq<nat>)
    requires n <= |rows|
    ensures |h| == |held|
  {
    if n == 0 then held else GrowRow(Grow(held, rows, n - 1), rows[n - 1])
  }

  lemma GrowRowSum(held: seq<nat>, r: Row)
    ensures Sum(held) <= Sum(GrowRow(held, r))
    ensures forall s :: 0 <= s < |held| ==> held[s] <= GrowRow(held, r)[s]
    ensures r.slot < |held| ==>
      Sum(GrowRow(held, r)) + held[r.slot] == Sum(held) + Max(held[r.slot], Blocks(r.pos + 1))
  {
    if r.slot < |held| {
      SumUpdate(held, r.slot, Max(held[r.slot], Blocks(r.pos + 1)));
    }
  }

  lemma {:induction false} GrowMonotone(held: seq<nat>, rows: seq<Row>, i: nat, n: nat)
    requires i <= n <= |rows|
    ensures Sum(Grow(held, rows, i)) <= Sum(Grow(held, rows, n))
    ensures forall s :: 0 <= s < |held| ==> Grow(held, rows, i)[s] <= Grow(held, rows, n)[s]
  {
    if i < n {
      GrowMonotone(held, rows, i, n - 1);
      GrowRowSum(Grow(held, rows, n - 1), rows[n - 1]);
    }
  }

  lemma {:induction false} GrowCovers(held: seq<nat>, rows: seq<Row>, i: nat, n: nat)
    requires i < n <= |rows| && rows[i].slot < |held|
    ensures Grow(held, rows, n)[rows[i].slot] >= Blocks(rows[i].pos + 1)
  {
    GrowMonotone(held, rows, i + 1, n);
  }

  // ---------------------------------------------------------------- reference counts

  /** How many times block `b` occurs in the first n slots' block lists. */
  ghost function RefsTo(sb: seq<seq<nat>>, b: nat, n: nat): nat
    requires n <= |sb|
  {
    if n == 0 then 0 else RefsTo(sb, b, n - 1) + multiset(sb[n - 1])[b]
  }

  ghost function Refs(sb: seq<seq<nat>>, b: nat): nat {
    RefsTo(sb, b, |sb|)
  }

  lemma {:induction false} RefsToSame(sb: seq<seq<nat>>, tb: seq<seq<nat>>, b: nat, n: nat)
    requires n <= |sb| && n <= |tb| && forall s :: 0 <= s < n ==> sb[s] == tb[s]
    ensures RefsTo(sb, b, n) == RefsTo(tb, b, n)
  {
    if n > 0 {
      RefsToSame(sb, tb, b, n - 1);
    }
  }

  lemma {:induction false} RefsToUpdate(sb: seq<seq<nat>>, s: nat, blocks: seq<nat>, b: nat, n: nat)
    requires s < n <= |sb|
    ensures RefsTo(sb[s := blocks], b, n) + multiset(sb[s])[b] == RefsTo(sb, b, n) + multiset(blocks)[b]
  {
    if s == n - 1 {
      RefsToSame(sb, sb[s := blocks], b, s);
    } else {
      RefsToUpdate(sb, s, blocks, b, n - 1);
    }
  }

  lemma RefsUpdate(sb: seq<seq<nat>>, s: nat, blocks: seq<nat>, b: nat)
    requires s < |sb|
    ensures Refs(sb[s := blocks], b) + multiset(sb[s])[b] == Refs(sb, b) + multiset(blocks)[b]
  {
    RefsToUpdate(sb, s, blocks, b, |sb|);
  }

  lemma {:induction false} RefsToSlots(sb: seq<seq<nat>>, s: nat, t: nat, b: nat, n: nat)
    requires n <= |sb|
    ensures s < n ==> multiset(sb[s])[b] <= RefsTo(sb, b, n)
    ensures s < t < n ==> multiset(sb[s])[b] + multiset(sb[t])[b] <= RefsTo(sb, b, n)
  {
    if n > 0 {
      RefsToSlots(sb, s, t, b, n - 1);
    }
  }

  lemma RefsSlot(sb: seq<seq<nat>>, s: nat, b: nat)
    requires s < |sb|
    ensures multiset(sb[s])[b] <= Refs(sb, b)
  {
    RefsToSlots(sb, s, s, b, |sb|);
  }

  lemma RefsTwoSlots(sb: seq<seq<nat>>, s: nat, t: nat, b: nat)
    requires s < t < |sb|
    ensures multiset(sb[s])[b] + multiset(sb[t])[b] <= Refs(sb, b)
  {
    RefsToSlots(sb, s, t, b, |sb|);
  }

  lemma CountTwice(s: seq<nat>, i: nat, j: nat)
    requires i < j < |s| && s[i] == s[j]
    ensures multiset(s)[s[i]] >= 2
  {
    assert s == s[..j] + s[j..];
    assert s[..j][i] in s[..j];
    assert s[j..][0] in s[j..];
    assert multiset(s) == multiset(s[..j]) + multiset(s[j..]);
  }

  /** A block referenced once is in one place only. */
  lemma RefsUnique(sb: seq<seq<nat>>, b: nat, s: nat, lb: nat, t: nat, lc: nat)
    requires Refs(sb, b) == 1
    requires s < |sb| && lb < |sb[s]| && sb[s][lb] == b
    requires t < |sb| && lc < |sb[t]| && sb[t][lc] == b
    ensures s == t && lb == lc
  {
    assert b in sb[s] && b in sb[t];
    if s < t {
      RefsTwoSlots(sb, s, t, b);
    } else if t < s {
      RefsTwoSlots(sb, t, s, b);
    } else {
      RefsSlot(sb, s, b);
      if lb < lc {
        CountTwice(sb[s], lb, lc);
      } else if lc < lb {
        CountTwice(sb[s], lc, lb);
      }
    }
  }

  /** Blocks nobody references. */
  ghost function Zero(refcount: seq<nat>): set<nat> {
    set b | 0 <= b < |refcount| && refcount[b] == 0
  }

  ghost function Used(sb: seq<seq<nat>>, n: nat): set<nat>
    requires n <= |sb|
  {
    if n == 0 then {} else Used(sb, n - 1) + Elems(sb[n - 1], |sb[n - 1]|)
  }

  ghost function Held(sb: seq<seq<nat>>): (h: seq<nat>)
    ensures |h| == |sb|
    ensures forall s :: 0 <= s < |h| ==> h[s] == |sb[s]|
  {
    seq(|sb|, s requires 0 <= s < |sb| => |sb[s]|)
  }

  ghost function Elems(s: seq<nat>, n: nat): (e: set<nat>)
    requires n <= |s|
  {
    if n == 0 then {} else Elems(s, n - 1) + {s[n - 1]}
  }

  lemma {:induction false} ElemsIn(s: seq<nat>, n: nat, b: nat)
    requires n <= |s|
    ensures b in Elems(s, n) ==> b in s
    ensures b in s && n == |s| ==> b in Elems(s, n)
    decreases n
  {
    if n > 0 {
      ElemsIn(s, n - 1, b);
      if n == |s| && b in s && b != s[n - 1] {
        var i :| 0 <= i < |s| && s[i] == b;
        ElemsAt(s, n, i);
      }
    }
  }

  lemma {:induction false} ElemsAt(s: seq<nat>, n: nat, i: nat)
    requires i < n <= |s|
    ensures s[i] in Elems(s, n)
  {
    if i < n - 1 {
      ElemsAt(s, n - 1, i);
    }
  }

  lemma {:induction false} ElemsFresh(s: seq<nat>, n: nat, b: nat)
    requires n <= |s| && forall i :: 0 <= i < n ==> s[i] != b
    ensures b !in Elems(s, n)
  {
    if n > 0 {
      ElemsFresh(s, n - 1, b);
    }
  }

  lemma {:induction false} ElemsBound(s: seq<nat>, n: nat)
    requires n <= |s|
    ensures |Elems(s, n)| <= n
    ensures NoDup(s) ==> |Elems(s, n)| == n
  {
    if n > 0 {
      ElemsBound(s, n - 1);
      if NoDup(s) {
        ElemsFresh(s, n - 1, s[n - 1]);
      }
    }
  }

  ghost predicate NoDup(s: seq<nat>) {
    forall i, j :: 0 <= i < j < |s| ==> s[i] != s[j]
  }

  lemma UnionSize(a: set<nat>, b: set<nat>)
    ensures |a + b| <= |a| + |b|
  {
    assert a + b == a + (b - a);
    assert |b - a| <= |b| by { SubsetSize(b - a, b); }
  }

  lemma {:induction false} UsedBound(sb: seq<seq<nat>>, n: nat)
    requires n <= |sb|
    ensures |Used(sb, n)| <= SumTo(Held(sb), n)
  {
    if n > 0 {
      UsedBound(sb, n - 1);
      ElemsBound(sb[n - 1], |sb[n - 1]|);
      UnionSize(Used(sb, n - 1), Elems(sb[n - 1], |sb[n - 1]|));
      assert Held(sb)[n - 1] == |sb[n - 1]|;
    }
  }

  lemma {:induction false} UsedRefs(sb: seq<seq<nat>>, b: nat, n: nat)
    requires n <= |sb| && RefsTo(sb, b, n) > 0
    ensures b in Used(sb, n)
  {
    if multiset(sb[n - 1])[b] > 0 {
      assert b in sb[n - 1];
      ElemsIn(sb[n - 1], |sb[n - 1]|, b);
    } else {
      UsedRefs(sb, b, n - 1);
    }
  }

  ghost function Below(n: nat): (e: set<nat>)
    ensures |e| == n
    ensures forall b :: b in e <==> 0 <= b < n
  {
    if n == 0 then {} else Below(n - 1) + {n - 1}
  }

  /** Sharing and caching only help: at least the blocks nobody holds are available. */
  lemma ZeroLowerBound(sb: seq<seq<nat>>, refcount: seq<nat>)
    requires forall b :: 0 <= b < |refcount| ==> refcount[b] == Refs(sb, b)
    ensures |refcount| <= |Zero(refcount)| + Sum(Held(sb))
  {
    UsedBound(sb, |sb|);
    var all := Below(|refcount|);
    forall b | b in all ensures b in Zero(refcount) + Used(sb, |sb|) {
      if refcount[b] > 0 {
        UsedRefs(sb, b, |sb|);
      }
    }
    SubsetSize(all, Zero(refcount) + Used(sb, |sb|));
  }

  lemma {:induction false} SubsetSize(a: set<nat>, b: set<nat>)
    requires a <= b
    ensures |a| <= |b|
  {
    if a != {} {
      var x :| x in a;
      SubsetSize(a - {x}, b - {x});
    }
  }

  // ---------------------------------------------------------------- pool invariants

  type Key = seq<Token>

  /** The free stack holds exactly the unreferenced blocks that are not in the prefix cache. */
  ghost predicate FreeOk(free: seq<nat>, refcount: seq<nat>, blockHash: seq<Option<Key>>)
    requires |blockHash| == |refcount|
  {
    && NoDup(free)
    && (forall b :: b in free ==> b < |refcount|)
    && (forall b :: 0 <= b < |refcount| ==> (b in free <==> refcount[b] == 0 && blockHash[b].None?))
  }

  /** `cacheMap` and `blockHash` are inverse to each other. */
  ghost predicate CacheOk(cacheMap: map<Key, nat>, blockHash: seq<Option<Key>>) {
    && (forall k :: k in cacheMap ==> cacheMap[k] < |blockHash| && blockHash[cacheMap[k]] == Some(k))
    && (forall b :: 0 <= b < |blockHash| && blockHash[b].Some? ==>
          blockHash[b].value in cacheMap && cacheMap[blockHash[b].value] == b)
  }

  ghost predicate RefsOk(sb: seq<seq<nat>>, refcount: seq<nat>) {
    && (forall s, lb :: 0 <= s < |sb| && 0 <= lb < |sb[s]| ==> sb[s][lb] < |refcount|)
    && (forall b :: 0 <= b < |refcount| ==> refcount[b] == Refs(sb, b))
  }

  /** A cached block holds the KV of the last 16 positions of its key. */
  ghost predicate CachedOk(m: Model, blockHash: seq<Option<Key>>, pool: seq<seq<Entry>>)
    requires |pool| == |blockHash|
  {
    forall b :: 0 <= b < |blockHash| && blockHash[b].Some? ==>
      BlockHolds(m, pool[b], blockHash[b].value, |blockHash[b].value| - BLOCK)
  }

  /** `block` holds the entries of `ctx` at positions base..base+16, as far as `ctx` reaches. */
  ghost predicate BlockHolds(m: Model, block: seq<Entry>, ctx: seq<Token>, base: int) {
    && |block| == BLOCK
    && 0 <= base
    && forall off :: 0 <= off < BLOCK && base + off < |ctx| ==> block[off] == KvOf(m, ctx)[base + off]
  }

  /** Slot `s` holds the KV of its context. */
  ghost predicate SlotOk(m: Model, blocks: seq<nat>, c: seq<Token>, pool: seq<seq<Entry>>)
    requires forall lb :: 0 <= lb < |blocks| ==> blocks[lb] < |pool|
  {
    && |c| <= BLOCK * |blocks|
    && forall lb :: 0 <= lb < |blocks| ==> BlockHolds(m, pool[blocks[lb]], c, BLOCK * lb)
  }

  /** From logical block `shared` on, the slot owns its blocks alone and none is cached. */
  ghost predicate OwnOk(blocks: seq<nat>, shared: nat, refcount: seq<nat>, blockHash: seq<Option<Key>>)
    requires |refcount| == |blockHash|
    requires forall lb :: 0 <= lb < |blocks| ==> blocks[lb] < |refcount|
  {
    && shared <= |blocks|
    && forall lb :: shared <= lb < |blocks| ==> refcount[blocks[lb]] == 1 && blockHash[blocks[lb]].None?
  }

  /** Reclaimable blocks: unreferenced but still registered in the prefix cache. */
  function Reclaimable(refcount: seq<nat>, blockHash: seq<Option<Key>>): (z: set<nat>)
    requires |blockHash| == |refcount|
    ensures forall b :: b in z <==> 0 <= b < |refcount| && refcount[b] == 0 && blockHash[b].Some?
  {
    set b | 0 <= b < |refcount| && refcount[b] == 0 && blockHash[b].Some?
  }

  /** The free stack and the reclaimable blocks together are the unreferenced blocks. */
  lemma FreeIsZero(free: seq<nat>, refcount: seq<nat>, blockHash: seq<Option<Key>>)
    requires |blockHash| == |refcount| && FreeOk(free, refcount, blockHash)
    ensures |free| + |Reclaimable(refcount, blockHash)| == |Zero(refcount)|
  {
    var stack := Elems(free, |free|);
    ElemsBound(free, |free|);
    forall b: nat ensures b in stack <==> b in free {
      ElemsIn(free, |free|, b);
    }
    assert Zero(refcount) == stack + Reclaimable(refcount, blockHash);
    assert stack !! Reclaimable(refcount, blockHash);
  }

  /** A block list grown by one fresh block. */
  lemma GrowSlot(sb: seq<seq<nat>>, s: nat, b: nat, refcount: seq<nat>)
    requires s < |sb| && b < |refcount|
    requires forall t, lb :: 0 <= t < |sb| && 0 <= lb < |sb[t]| ==> sb[t][lb] < |refcount|
    requires forall c :: 0 <= c < |refcount| && c != b ==> refcount[c] == Refs(sb, c)
    requires refcount[b] == Refs(sb, b) + 1
    ensures RefsOk(sb[s := sb[s] + [b]], refcount)
  {
    forall c | 0 <= c < |refcount|
      ensures refcount[c] == Refs(sb[s := sb[s] + [b]], c)
    {
      RefsUpdate(sb, s, sb[s] + [b], c);
    }
  }

  /** Host-side bookkeeping of the pool. `slotBlocks[slot]` lists the slot's blocks in logical order. */
  datatype BlockState = BlockState(
    free: seq<nat>,
    slotBlocks: seq<seq<nat>>,
    refcount: seq<nat>,
    cacheMap: map<Key, nat>,
    blockHash: seq<Option<Key>>,
    lastUse: seq<nat>,
    clock: nat)
  {
    /** The bookkeeping invariant; all but its shape is folded. */
    ghost predicate Ok() {
      && Shape()
      && forall n :: Unfold(n) ==> Consistent()
    }

    ghost predicate Shape() {
      && |refcount| == |blockHash| == |lastUse|
      && (forall s, lb :: 0 <= s < |slotBlocks| && 0 <= lb < |slotBlocks[s]| ==> slotBlocks[s][lb] < |refcount|)
    }

    ghost predicate Consistent() {
      && Shape()
      && RefsOk(slotBlocks, refcount)
      && FreeOk(free, refcount, blockHash)
      && CacheOk(cacheMap, blockHash)
    }

    /** Block counts per slot. */
    ghost function Holding(): (h: seq<nat>)
      ensures |h| == |slotBlocks|
      ensures forall s :: 0 <= s < |h| ==> h[s] == |slotBlocks[s]|
    {
      Held(slotBlocks)
    }

    /** Blocks available for a fresh allocation: free or reclaimable. */
    function FreeBlocks(): (n: nat)
      requires Ok()
      ensures n == |Zero(refcount)|
    {
      assert Unfold(0);
      FreeIsZero(free, refcount, blockHash);
      |free| + |Reclaimable(refcount, blockHash)|
    }

    /** How many more blocks `slot` needs to hold n positions. */
    function BlocksShort(slot: nat, n: nat): nat
      requires slot < |slotBlocks|
    {
      if Blocks(n) > |slotBlocks[slot]| then Blocks(n) - |slotBlocks[slot]| else 0
    }
  }

  /** Slot `s` holds its context, and owns alone every block from `shared[s]` on. */
  ghost predicate SlotsOk(m: Model, bs: BlockState, limit: nat, pool: seq<seq<Entry>>, ctx: seq<seq<Token>>, shared: seq<nat>)
    requires bs.Shape() && |pool| == |bs.refcount| && |ctx| == |shared| == |bs.slotBlocks|
  {
    forall s :: 0 <= s < |ctx| ==>
      && |bs.slotBlocks[s]| <= limit
      && SlotOk(m, bs.slotBlocks[s], ctx[s], pool)
      && OwnOk(bs.slotBlocks[s], shared[s], bs.refcount, bs.blockHash)
  }

  ghost predicate PoolOk(m: Model, bs: BlockState, limit: nat, pool: seq<seq<Entry>>, ctx: seq<seq<Token>>, shared: seq<nat>) {
    && bs.Shape()
    && |pool| == |bs.refcount|
    && |ctx| == |shared| == |bs.slotBlocks|
    && (forall b :: 0 <= b < |pool| ==> |pool[b]| == BLOCK)
    && (forall n :: Unfold(n) ==> PoolConsistent(m, bs, limit, pool, ctx, shared))
  }

  ghost predicate PoolConsistent(m: Model, bs: BlockState, limit: nat, pool: seq<seq<Entry>>, ctx: seq<seq<Token>>, shared: seq<nat>) {
    && bs.Consistent()
    && |pool| == |bs.refcount|
    && |ctx| == |shared| == |bs.slotBlocks|
    && limit <= |pool|
    && CachedOk(m, bs.blockHash, pool)
    && SlotsOk(m, bs, limit, pool, ctx, shared)
  }

  /** `to` is `from` after block `b`, unreferenced before, has been taken. */
  ghost predicate Taken(from: BlockState, to: BlockState, b: nat) {
    && b < |from.refcount| == |from.blockHash|
    && from.refcount[b] == 0
    && to.refcount == from.refcount[b := 1]
    && to.blockHash == from.blockHash[b := None]
    && to.slotBlocks == from.slotBlocks
    && |to.lastUse| == |from.lastUse|
    && FreeOk(to.free, to.refcount, to.blockHash)
    && CacheOk(to.cacheMap, to.blockHash)
  }

  /** `from` with the taken block appended to the slot's list. */
  ghost function Append(to: BlockState, slot: nat, b: nat): BlockState
    requires slot < |to.slotBlocks|
  {
    to.(slotBlocks := to.slotBlocks[slot := to.slotBlocks[slot] + [b]])
  }

  lemma AppendBooks(from: BlockState, to: BlockState, b: nat, slot: nat)
    requires from.Ok() && Taken(from, to, b) && slot < |from.slotBlocks|
    ensures Append(to, slot, b).Ok()
    ensures Append(to, slot, b).FreeBlocks() + 1 == from.FreeBlocks()
    ensures Append(to, slot, b).Holding() == from.Holding()[slot := |from.slotBlocks[slot]| + 1]
  {
    assert Unfold(0);
    GrowSlot(from.slotBlocks, slot, b, to.refcount);
    assert b in Zero(from.refcount);
    assert Zero(to.refcount) == Zero(from.refcount) - {b};
  }

  lemma AppendSlot(m: Model, from: BlockState, to: BlockState, b: nat, slot: nat, s: nat,
                   pool: seq<seq<Entry>>, c: seq<Token>, shared: nat)
    requires from.Ok() && Taken(from, to, b) && slot < |from.slotBlocks| && |pool| == |from.refcount|
    requires Append(to, slot, b).Ok() && s < |from.slotBlocks|
    requires |pool[b]| == BLOCK
    requires SlotOk(m, from.slotBlocks[s], c, pool)
    requires OwnOk(from.slotBlocks[s], shared, from.refcount, from.blockHash)
    ensures SlotOk(m, Append(to, slot, b).slotBlocks[s], c, pool)
    ensures OwnOk(Append(to, slot, b).slotBlocks[s], shared, to.refcount, to.blockHash)
  {
    assert Unfold(0);
    Untouched(from.slotBlocks, s, b);
  }

  /** Appending a freshly taken block to a slot keeps the invariant. */
  lemma AppendTaken(m: Model, from: BlockState, to: BlockState, b: nat, slot: nat, limit: nat,
                    pool: seq<seq<Entry>>, ctx: seq<seq<Token>>, shared: seq<nat>)
    requires PoolOk(m, from, limit, pool, ctx, shared)
    requires Taken(from, to, b)
    requires slot < |from.slotBlocks| && |from.slotBlocks[slot]| < limit
    ensures PoolOk(m, Append(to, slot, b), limit, pool, ctx, shared)
  {
    assert Unfold(0);
    AppendBooks(from, to, b, slot);
    var bs := Append(to, slot, b);
    forall s | 0 <= s < |ctx|
      ensures |bs.slotBlocks[s]| <= limit
      ensures SlotOk(m, bs.slotBlocks[s], ctx[s], pool)
      ensures OwnOk(bs.slotBlocks[s], shared[s], bs.refcount, bs.blockHash)
    {
      AppendSlot(m, from, to, b, slot, s, pool, ctx[s], shared[s]);
    }
    assert CachedOk(m, bs.blockHash, pool);
    assert SlotsOk(m, bs, limit, pool, ctx, shared);
    assert PoolOk(m, bs, limit, pool, ctx, shared);
  }

  lemma SetTwice(s: seq<nat>, i: nat, a: nat, b: nat)
    requires i < |s|
    ensures s[i := a][i := b] == s[i := b]
  {
  }

  lemma Untouched(sb: seq<seq<nat>>, s: nat, b: nat)
    requires s < |sb| && Refs(sb, b) == 0
    ensures b !in sb[s]
  {
    RefsSlot(sb, s, b);
  }

  // ---------------------------------------------------------------- releasing a slot

  /** Dropping a slot's list leaves every other exclusive owner exclusive. */
  lemma ReleaseOwn(sb: seq<seq<nat>>, slot: nat, t: nat, b: nat)
    requires slot < |sb| && t < |sb| && t != slot
    requires b in sb[t] && Refs(sb, b) == 1
    ensures Refs(sb[slot := []], b) == 1
  {
    RefsUpdate(sb, slot, [], b);
    if t < slot {
      RefsTwoSlots(sb, t, slot, b);
    } else {
      RefsTwoSlots(sb, slot, t, b);
    }
  }

  /** `to` is `from` with the references of `slot` dropped. */
  ghost predicate Released(from: BlockState, to: BlockState, slot: nat) {
    && slot < |from.slotBlocks|
    && to.slotBlocks == from.slotBlocks[slot := []]
    && to.blockHash == from.blockHash
    && |to.lastUse| == |from.lastUse|
    && to.Ok()
  }

  lemma ReleaseBooks(from: BlockState, to: BlockState, slot: nat)
    requires from.Ok() && Released(from, to, slot) && |to.refcount| == |from.refcount|
    ensures to.FreeBlocks() >= from.FreeBlocks()
    ensures to.Holding() == from.Holding()[slot := 0]
  {
    assert Unfold(0);
    forall b | b in Zero(from.refcount) ensures b in Zero(to.refcount) {
      RefsUpdate(from.slotBlocks, slot, [], b);
    }
    SubsetSize(Zero(from.refcount), Zero(to.refcount));
  }

  lemma ReleaseOk(m: Model, from: BlockState, to: BlockState, slot: nat, limit: nat,
                  pool: seq<seq<Entry>>, ctx: seq<seq<Token>>, shared: seq<nat>)
    requires PoolOk(m, from, limit, pool, ctx, shared)
    requires Released(from, to, slot) && |to.refcount| == |from.refcount|
    ensures PoolOk(m, to, limit, pool, ctx[slot := []], shared[slot := 0])
  {
    assert Unfold(0);
    forall t | 0 <= t < |ctx|
      ensures |to.slotBlocks[t]| <= limit
      ensures SlotOk(m, to.slotBlocks[t], ctx[slot := []][t], pool)
      ensures OwnOk(to.slotBlocks[t], shared[slot := 0][t], to.refcount, to.blockHash)
    {
      if t != slot {
        forall lb | shared[t] <= lb < |from.slotBlocks[t]| ensures to.refcount[from.slotBlocks[t][lb]] == 1 {
          ReleaseOwn(from.slotBlocks, slot, t, from.slotBlocks[t][lb]);
        }
      }
    }
    assert CachedOk(m, to.blockHash, pool);
  }

  /** Midway through dropping `owned`: the blocks from i on still count. */
  ghost predicate Releasing(from: BlockState, st: BlockState, slot: nat, owned: seq<nat>, i: nat) {
    && slot < |from.slotBlocks| && i <= |owned|
    && |st.refcount| == |st.blockHash| == |st.lastUse| == |from.refcount|
    && st.slotBlocks == from.slotBlocks[slot := []]
    && st.blockHash == from.blockHash && st.cacheMap == from.cacheMap
    && (forall j :: 0 <= j < |owned| ==> owned[j] < |st.refcount|)
    && (forall b :: 0 <= b < |st.refcount| ==> st.refcount[b] == Refs(st.slotBlocks, b) + multiset(owned[i..])[b])
    && FreeOk(st.free, st.refcount, st.blockHash)
  }

  lemma StartRelease(from: BlockState, slot: nat)
    requires from.Ok() && slot < |from.slotBlocks|
    ensures Releasing(from, from.(slotBlocks := from.slotBlocks[slot := []]), slot, from.slotBlocks[slot], 0)
  {
    assert Unfold(0);
    var owned := from.slotBlocks[slot];
    assert owned[0..] == owned;
    forall b | 0 <= b < |from.refcount|
      ensures from.refcount[b] == Refs(from.slotBlocks[slot := []], b) + multiset(owned)[b]
    {
      RefsUpdate(from.slotBlocks, slot, [], b);
    }
  }

  /** Drops one reference; the block returns to the free stack when unreferenced and uncached. */
  ghost function DropRef(st: BlockState, b: nat): BlockState
    requires b < |st.refcount| == |st.blockHash| && st.refcount[b] > 0
  {
    var rc := st.refcount[b := st.refcount[b] - 1];
    st.(refcount := rc, free := if rc[b] == 0 && st.blockHash[b].None? then st.free + [b] else st.free)
  }

  lemma ReleaseStep(from: BlockState, st: BlockState, slot: nat, owned: seq<nat>, i: nat)
    requires Releasing(from, st, slot, owned, i) && i < |owned|
    ensures st.refcount[owned[i]] > 0
    ensures Releasing(from, DropRef(st, owned[i]), slot, owned, i + 1)
  {
    var b := owned[i];
    assert owned[i..] == [b] + owned[i + 1..];
    assert multiset(owned[i..]) == multiset{b} + multiset(owned[i + 1..]);
    assert st.refcount[b] > 0;
    DropFree(st, b);
  }

  lemma DropFree(st: BlockState, b: nat)
    requires b < |st.refcount| == |st.blockHash| && st.refcount[b] > 0
    requires FreeOk(st.free, st.refcount, st.blockHash)
    ensures FreeOk(DropRef(st, b).free, DropRef(st, b).refcount, st.blockHash)
  {
    var to := DropRef(st, b);
    assert b !in st.free;
    if to.free != st.free {
      assert forall c :: c in to.free <==> c in st.free || c == b;
    }
  }

  lemma EndRelease(from: BlockState, st: BlockState, slot: nat, owned: seq<nat>)
    requires from.Ok() && Releasing(from, st, slot, owned, |owned|)
    ensures Released(from, st, slot)
  {
    assert Unfold(0);
    assert owned[|owned|..] == [];
    assert RefsOk(st.slotBlocks, st.refcount);
  }

  // ---------------------------------------------------------------- writing one row

  /** The entries a row at `pos` attends, read through the slot's block list. */
  function Gather(blocks: seq<nat>, pool: seq<seq<Entry>>, n: nat): (kv: seq<Entry>)
    requires n <= BLOCK * |blocks|
    requires forall lb :: 0 <= lb < |blocks| ==> blocks[lb] < |pool| && |pool[blocks[lb]]| == BLOCK
    ensures |kv| == n
  {
    seq(n, p requires 0 <= p < n => pool[blocks[p / BLOCK]][p % BLOCK])
  }

  lemma {:induction false} GatherIs(m: Model, blocks: seq<nat>, pool: seq<seq<Entry>>, c: seq<Token>, n: nat)
    requires forall lb :: 0 <= lb < |blocks| ==> blocks[lb] < |pool|
    requires SlotOk(m, blocks, c, pool) && n <= |c|
    ensures Gather(blocks, pool, n) == KvOf(m, c[..n])
  {
    KvPrefix(m, c, n);
    forall p | 0 <= p < n ensures Gather(blocks, pool, n)[p] == KvOf(m, c)[p] {
      assert BlockHolds(m, pool[blocks[p / BLOCK]], c, BLOCK * (p / BLOCK));
    }
  }

  function Put(block: seq<Entry>, off: nat, e: Entry): seq<Entry>
    requires off < |block|
  {
    block[off := e]
  }

  lemma {:induction false} WriteTarget(m: Model, blocks: seq<nat>, c: seq<Token>, pool: seq<seq<Entry>>, lc: nat, pos: nat, tok: Token)
    requires forall lb :: 0 <= lb < |blocks| ==> blocks[lb] < |pool|
    requires SlotOk(m, blocks, c, pool) && pos <= |c| && pos < BLOCK * |blocks|
    requires lc < |blocks|
    ensures var e: Entry := m.embed(KvOf(m, c[..pos]), pos, tok);
            var blk := pool[blocks[lc]];
            BlockHolds(m, if lc == pos / BLOCK then Put(blk, pos % BLOCK, e) else blk, c[..pos] + [tok], BLOCK * lc)
  {
    var c' := c[..pos] + [tok];
    assert c'[..pos] == c[..pos];
    KvPrefix(m, c, pos);
    assert BlockHolds(m, pool[blocks[lc]], c, BLOCK * lc);
    forall p | 0 <= p < pos
      ensures KvOf(m, c')[p] == KvOf(m, c)[p]
    {
      assert KvOf(m, c')[p] == KvOf(m, c')[..pos][p];
      assert KvOf(m, c)[p] == KvOf(m, c)[..pos][p];
    }
  }

  /** Writing a row keeps the invariant: its block is referenced by this slot only and not cached. */
  lemma {:induction false} WriteOk(m: Model, bs: BlockState, limit: nat, pool: seq<seq<Entry>>, ctx: seq<seq<Token>>, shared: seq<nat>,
                slot: nat, pos: nat, tok: Token)
    requires PoolOk(m, bs, limit, pool, ctx, shared)
    requires slot < |ctx| && BLOCK * shared[slot] <= pos <= |ctx[slot]| && pos < BLOCK * |bs.slotBlocks[slot]|
    ensures var b := bs.slotBlocks[slot][pos / BLOCK];
            var e: Entry := m.embed(KvOf(m, ctx[slot][..pos]), pos, tok);
            PoolOk(m, bs, limit, pool[b := Put(pool[b], pos % BLOCK, e)], ctx[slot := ctx[slot][..pos] + [tok]], shared)
  {
    assert Unfold(0);
    var lb := pos / BLOCK;
    var b := bs.slotBlocks[slot][lb];
    var e: Entry := m.embed(KvOf(m, ctx[slot][..pos]), pos, tok);
    var pool' := pool[b := Put(pool[b], pos % BLOCK, e)];
    var ctx' := ctx[slot := ctx[slot][..pos] + [tok]];
    assert bs.refcount[b] == 1 && bs.blockHash[b].None?;
    forall t | 0 <= t < |ctx|
      ensures SlotOk(m, bs.slotBlocks[t], ctx'[t], pool')
    {
      forall lc | 0 <= lc < |bs.slotBlocks[t]|
        ensures BlockHolds(m, pool'[bs.slotBlocks[t][lc]], ctx'[t], BLOCK * lc)
      {
        if bs.slotBlocks[t][lc] == b {
          RefsUnique(bs.slotBlocks, b, slot, lb, t, lc);
        }
        if t == slot {
          if bs.slotBlocks[t][lc] != b { assert lc != lb; }
          WriteTarget(m, bs.slotBlocks[t], ctx[t], pool, lc, pos, tok);
        } else {
          assert BlockHolds(m, pool[bs.slotBlocks[t][lc]], ctx[t], BLOCK * lc);
        }
      }
    }
    assert CachedOk(m, bs.blockHash, pool');
    assert SlotsOk(m, bs, limit, pool', ctx', shared);
  }

  // ---------------------------------------------------------------- the prefix cache

  /** Reusing the cached block of `key` as the next block of an all-shared slot. */
  ghost function Reuse(bs: BlockState, slot: nat, b: nat): BlockState
    requires slot < |bs.slotBlocks| && b < |bs.refcount| && b < |bs.lastUse|
  {
    bs.(refcount := bs.refcount[b := bs.refcount[b] + 1],
        clock := bs.clock + 1,
        lastUse := bs.lastUse[b := bs.clock + 1],
        slotBlocks := bs.slotBlocks[slot := bs.slotBlocks[slot] + [b]])
  }

  lemma ReuseBooks(bs: BlockState, slot: nat, b: nat)
    requires bs.Ok() && slot < |bs.slotBlocks| && b < |bs.refcount| && bs.blockHash[b].Some?
    ensures Reuse(bs, slot, b).Ok()
    ensures Reuse(bs, slot, b).FreeBlocks() + 1 >= bs.FreeBlocks()
    ensures Reuse(bs, slot, b).Holding() == bs.Holding()[slot := |bs.slotBlocks[slot]| + 1]
  {
    var to := Reuse(bs, slot, b);
    assert to.Ok() by {
      assert Unfold(0);
      GrowSlot(bs.slotBlocks, slot, b, to.refcount);
      ReuseFree(bs.free, bs.refcount, bs.blockHash, b);
    }
    assert Zero(to.refcount) == Zero(bs.refcount) - {b};
  }

  lemma ReuseFree(free: seq<nat>, refcount: seq<nat>, blockHash: seq<Option<Key>>, b: nat)
    requires |refcount| == |blockHash| && b < |refcount| && blockHash[b].Some?
    requires FreeOk(free, refcount, blockHash)
    ensures FreeOk(free, refcount[b := refcount[b] + 1], blockHash)
  {
  }

  /** A block that holds positions base..base+16 for one context holds them for any extension or prefix covering them. */
  lemma HoldsPrefix(m: Model, block: seq<Entry>, c: seq<Token>, base: nat, n: nat)
    requires n <= |c|
    requires BlockHolds(m, block, c, base)
    ensures BlockHolds(m, block, c[..n], base)
  {
    KvPrefix(m, c, n);
  }

  lemma HoldsExtension(m: Model, block: seq<Entry>, c: seq<Token>, base: nat, n: nat)
    requires base + BLOCK <= n <= |c|
    requires BlockHolds(m, block, c[..n], base)
    ensures BlockHolds(m, block, c, base)
  {
    KvPrefix(m, c, n);
    forall off | 0 <= off < BLOCK && base + off < |c| ensures block[off] == KvOf(m, c)[base + off] {
      assert KvOf(m, c)[base + off] == KvOf(m, c)[..n][base + off];
    }
  }

  lemma ReuseSlot(m: Model, blocks: seq<nat>, b: nat, pool: seq<seq<Entry>>, prompt: seq<Token>)
    requires b < |pool| && forall lb :: 0 <= lb < |blocks| ==> blocks[lb] < |pool|
    requires BLOCK * (|blocks| + 1) <= |prompt|
    requires SlotOk(m, blocks, prompt[..BLOCK * |blocks|], pool)
    requires BlockHolds(m, pool[b], prompt[..BLOCK * (|blocks| + 1)], BLOCK * |blocks|)
    ensures SlotOk(m, blocks + [b], prompt[..BLOCK * (|blocks| + 1)], pool)
  {
    var n := BLOCK * |blocks|;
    var c := prompt[..n + BLOCK];
    assert c[..n] == prompt[..n];
    forall lb | 0 <= lb < |blocks| ensures BlockHolds(m, pool[blocks[lb]], c, BLOCK * lb) {
      HoldsExtension(m, pool[blocks[lb]], c, BLOCK * lb, n);
    }
  }

  lemma ReuseOwn(blocks: seq<nat>, shared: nat, refcount: seq<nat>, blockHash: seq<Option<Key>>, b: nat)
    requires |refcount| == |blockHash| && b < |refcount| && blockHash[b].Some?
    requires forall lb :: 0 <= lb < |blocks| ==> blocks[lb] < |refcount|
    requires OwnOk(blocks, shared, refcount, blockHash)
    ensures OwnOk(blocks, shared, refcount[b := refcount[b] + 1], blockHash)
  {
  }

  lemma ReuseSlots(m: Model, bs: BlockState, limit: nat, pool: seq<seq<Entry>>, ctx: seq<seq<Token>>, shared: seq<nat>,
                   slot: nat, b: nat, prompt: seq<Token>)
    requires bs.Shape() && |pool| == |bs.refcount| && |ctx| == |shared| == |bs.slotBlocks|
    requires SlotsOk(m, bs, limit, pool, ctx, shared)
    requires slot < |ctx| && b < |pool| && |bs.slotBlocks[slot]| < limit && bs.blockHash[b].Some?
    requires BLOCK * (|bs.slotBlocks[slot]| + 1) <= |prompt|
    requires ctx[slot] == prompt[..BLOCK * |bs.slotBlocks[slot]|]
    requires BlockHolds(m, pool[b], prompt[..BLOCK * (|bs.slotBlocks[slot]| + 1)], BLOCK * |bs.slotBlocks[slot]|)
    ensures var to := Reuse(bs, slot, b);
            && to.Shape()
            && SlotsOk(m, to, limit, pool, ctx[slot := prompt[..BLOCK * (|bs.slotBlocks[slot]| + 1)]],
                       shared[slot := |bs.slotBlocks[slot]| + 1])
  {
    var to := Reuse(bs, slot, b);
    var lb := |bs.slotBlocks[slot]|;
    var key := prompt[..BLOCK * (lb + 1)];
    forall t | 0 <= t < |ctx|
      ensures |to.slotBlocks[t]| <= limit
      ensures SlotOk(m, to.slotBlocks[t], ctx[slot := key][t], pool)
      ensures OwnOk(to.slotBlocks[t], shared[slot := lb + 1][t], to.refcount, to.blockHash)
    {
      if t == slot {
        ReuseSlot(m, bs.slotBlocks[slot], b, pool, prompt);
      } else {
        ReuseOwn(bs.slotBlocks[t], shared[t], bs.refcount, bs.blockHash, b);
      }
    }
  }

  /** Assembles the folded invariant from its parts. */
  lemma PoolFrom(m: Model, bs: BlockState, limit: nat, pool: seq<seq<Entry>>, ctx: seq<seq<Token>>, shared: seq<nat>)
    requires bs.Ok() && |pool| == |bs.refcount| && |ctx| == |shared| == |bs.slotBlocks| && limit <= |pool|
    requires forall b :: 0 <= b < |pool| ==> |pool[b]| == BLOCK
    requires CachedOk(m, bs.blockHash, pool) && SlotsOk(m, bs, limit, pool, ctx, shared)
    ensures PoolOk(m, bs, limit, pool, ctx, shared)
  {
    assert Unfold(0);
  }

  lemma ReuseOk(m: Model, bs: BlockState, limit: nat, pool: seq<seq<Entry>>, ctx: seq<seq<Token>>, shared: seq<nat>,
                slot: nat, prompt: seq<Token>, lb: nat)
    requires PoolOk(m, bs, limit, pool, ctx, shared)
    requires slot < |ctx| && |bs.slotBlocks[slot]| == lb < limit && BLOCK * (lb + 1) <= |prompt|
    requires shared[slot] == lb && ctx[slot] == prompt[..BLOCK * lb]
    requires prompt[..BLOCK * (lb + 1)] in bs.cacheMap
    ensures var b := bs.cacheMap[prompt[..BLOCK * (lb + 1)]];
            && b < |bs.refcount| && bs.blockHash[b].Some?
            && PoolOk(m, Reuse(bs, slot, b), limit, pool, ctx[slot := prompt[..BLOCK * (lb + 1)]], shared[slot := lb + 1])
  {
    assert Unfold(0);
    var key := prompt[..BLOCK * (lb + 1)];
    var b := bs.cacheMap[key];
    assert bs.blockHash[b] == Some(key);
    assert BlockHolds(m, pool[b], key, BLOCK * lb);
    ReuseBooks(bs, slot, b);
    ReuseSlots(m, bs, limit, pool, ctx, shared, slot, b, prompt);
    PoolFrom(m, Reuse(bs, slot, b), limit, pool, ctx[slot := key], shared[slot := lb + 1]);
  }

  /** Registering the slot's own logical block `lb` under `key`, unless the key is already cached. */
  ghost function Register(bs: BlockState, b: nat, key: Key): BlockState
    requires b < |bs.blockHash| && b < |bs.lastUse|
  {
    if key in bs.cacheMap then bs
    else
      bs.(cacheMap := bs.cacheMap[key := b],
          blockHash := bs.blockHash[b := Some(key)],
          clock := bs.clock + 1,
          lastUse := bs.lastUse[b := bs.clock + 1])
  }

  lemma RegisterBooks(bs: BlockState, b: nat, key: Key)
    requires bs.Ok() && b < |bs.refcount| && bs.refcount[b] > 0 && bs.blockHash[b].None?
    ensures Register(bs, b, key).Ok()
    ensures Register(bs, b, key).FreeBlocks() == bs.FreeBlocks()
  {
    assert Unfold(0);
    var to := Register(bs, b, key);
    assert FreeOk(to.free, to.refcount, to.blockHash);
  }

  lemma RegisterCached(m: Model, bs: BlockState, b: nat, key: Key, pool: seq<seq<Entry>>)
    requires |pool| == |bs.blockHash| == |bs.lastUse| && b < |pool|
    requires CachedOk(m, bs.blockHash, pool)
    requires BlockHolds(m, pool[b], key, |key| - BLOCK)
    ensures CachedOk(m, Register(bs, b, key).blockHash, pool)
  {
  }

  lemma RegisterOwn(bs: BlockState, slot: nat, lb: nat, t: nat, key: Key, shared: nat)
    requires bs.Ok() && slot < |bs.slotBlocks| && lb < |bs.slotBlocks[slot]| && t < |bs.slotBlocks|
    requires bs.refcount[bs.slotBlocks[slot][lb]] == 1
    requires OwnOk(bs.slotBlocks[t], shared, bs.refcount, bs.blockHash)
    requires t == slot ==> shared == lb
    ensures OwnOk(bs.slotBlocks[t], if t == slot then lb + 1 else shared, bs.refcount,
                  Register(bs, bs.slotBlocks[slot][lb], key).blockHash)
  {
    assert Unfold(0);
    var b := bs.slotBlocks[slot][lb];
    forall lc | 0 <= lc < |bs.slotBlocks[t]| && bs.slotBlocks[t][lc] == b ensures t == slot && lc == lb {
      RefsUnique(bs.slotBlocks, b, slot, lb, t, lc);
    }
  }

  lemma RegisterOk(m: Model, bs: BlockState, limit: nat, pool: seq<seq<Entry>>, ctx: seq<seq<Token>>, shared: seq<nat>,
                   slot: nat, prompt: seq<Token>, lb: nat)
    requires PoolOk(m, bs, limit, pool, ctx, shared)
    requires slot < |ctx| && shared[slot] == lb < |bs.slotBlocks[slot]| && BLOCK * (lb + 1) <= |prompt|
    requires prompt <= ctx[slot]
    ensures PoolOk(m, Register(bs, bs.slotBlocks[slot][lb], prompt[..BLOCK * (lb + 1)]), limit, pool, ctx, shared[slot := lb + 1])
    ensures Register(bs, bs.slotBlocks[slot][lb], prompt[..BLOCK * (lb + 1)]).Ok()
    ensures Register(bs, bs.slotBlocks[slot][lb], prompt[..BLOCK * (lb + 1)]).FreeBlocks() == bs.FreeBlocks()
  {
    assert Unfold(0);
    var b := bs.slotBlocks[slot][lb];
    var key := prompt[..BLOCK * (lb + 1)];
    assert OwnOk(bs.slotBlocks[slot], shared[slot], bs.refcount, bs.blockHash);
    RegisterBooks(bs, b, key);
    var to := Register(bs, b, key);
    assert BlockHolds(m, pool[b], ctx[slot], BLOCK * lb);
    assert ctx[slot][..|key|] == key;
    HoldsPrefix(m, pool[b], ctx[slot], BLOCK * lb, |key|);
    assert |key| - BLOCK == BLOCK * lb;
    assert BlockHolds(m, pool[b], key, |key| - BLOCK);
    forall t | 0 <= t < |ctx|
      ensures |to.slotBlocks[t]| <= limit
      ensures SlotOk(m, to.slotBlocks[t], ctx[t], pool)
      ensures OwnOk(to.slotBlocks[t], shared[slot := lb + 1][t], to.refcount, to.blockHash)
    {
      RegisterOwn(bs, slot, lb, t, key, shared[t]);
    }
    RegisterCached(m, bs, b, key, pool);
    assert SlotsOk(m, to, limit, pool, ctx, shared[slot := lb + 1]);
  }

  // ---------------------------------------------------------------- swapping to host

  /** The blob holds the KV of `c`. */
  ghost predicate HostHolds(m: Model, host: HostKv, c: seq<Token>) {
    && host.nPos == |c|
    && host.nb == Blocks(host.nPos) == |host.blocks|
    && forall lb :: 0 <= lb < host.nb ==> BlockHolds(m, host.blocks[lb], c, BLOCK * lb)
  }

  lemma HostCopy(m: Model, blocks: seq<nat>, pool: seq<seq<Entry>>, c: seq<Token>, n: nat, host: HostKv)
    requires forall lb :: 0 <= lb < |blocks| ==> blocks[lb] < |pool|
    requires SlotOk(m, blocks, c, pool) && n <= |c|
    requires host.nPos == n && host.nb == Blocks(n) == |host.blocks| <= |blocks|
    requires forall lb :: 0 <= lb < host.nb ==> host.blocks[lb] == pool[blocks[lb]]
    ensures HostHolds(m, host, c[..n])
  {
    forall lb | 0 <= lb < host.nb ensures BlockHolds(m, host.blocks[lb], c[..n], BLOCK * lb) {
      HoldsPrefix(m, pool[blocks[lb]], c, BLOCK * lb, n);
    }
  }

  /** Overwriting a whole block that only an empty-context slot references. */
  lemma RestoreBlock(m: Model, bs: BlockState, limit: nat, pool: seq<seq<Entry>>, ctx: seq<seq<Token>>, shared: seq<nat>,
                     slot: nat, lb: nat, block: seq<Entry>)
    requires PoolOk(m, bs, limit, pool, ctx, shared)
    requires slot < |ctx| && ctx[slot] == [] && shared[slot] <= lb < |bs.slotBlocks[slot]| && |block| == BLOCK
    ensures PoolOk(m, bs, limit, pool[bs.slotBlocks[slot][lb] := block], ctx, shared)
  {
    assert Unfold(0);
    var b := bs.slotBlocks[slot][lb];
    var pool' := pool[b := block];
    assert OwnOk(bs.slotBlocks[slot], shared[slot], bs.refcount, bs.blockHash);
    forall t | 0 <= t < |ctx|
      ensures SlotOk(m, bs.slotBlocks[t], ctx[t], pool')
    {
      forall lc | 0 <= lc < |bs.slotBlocks[t]|
        ensures BlockHolds(m, pool'[bs.slotBlocks[t][lc]], ctx[t], BLOCK * lc)
      {
        if bs.slotBlocks[t][lc] == b {
          RefsUnique(bs.slotBlocks, b, slot, lb, t, lc);
        }
        assert BlockHolds(m, pool[bs.slotBlocks[t][lc]], ctx[t], BLOCK * lc);
      }
    }
    assert CachedOk(m, bs.blockHash, pool');
    assert SlotsOk(m, bs, limit, pool', ctx, shared);
  }

  lemma RestoredContext(m: Model, bs: BlockState, limit: nat, pool: seq<seq<Entry>>, ctx: seq<seq<Token>>, shared: seq<nat>,
                        slot: nat, c: seq<Token>)
    requires PoolOk(m, bs, limit, pool, ctx, shared) && slot < |ctx|
    requires SlotOk(m, bs.slotBlocks[slot], c, pool)
    ensures PoolOk(m, bs, limit, pool, ctx[slot := c], shared)
  {
    assert Unfold(0);
    assert SlotsOk(m, bs, limit, pool, ctx[slot := c], shared);
  }

  // ---------------------------------------------------------------- prefill rows

  /** A prompt's positions from..to as rows of one slot. */
  function PrefillRows(prompt: seq<Token>, slot: nat, from: nat, to: nat): (rows: seq<Row>)
    requires from <= to <= |prompt|
    ensures |rows| == to - from
  {
    seq(to - from, i requires 0 <= i < to - from => Row(prompt[from + i], from + i, slot))
  }

  lemma {:induction false} PrefillFeed(ctx: seq<seq<Token>>, prompt: seq<Token>, slot: nat, from: nat, to: nat, n: nat)
    requires from <= to <= |prompt| && n <= to - from && slot < |ctx|
    requires from <= |ctx[slot]| && ctx[slot][..from] == prompt[..from]
    ensures n == 0 ==> FeedRows(ctx, PrefillRows(prompt, slot, from, to), n) == ctx
    ensures n > 0 ==> FeedRows(ctx, PrefillRows(prompt, slot, from, to), n) == ctx[slot := prompt[..from + n]]
  {
    if n > 0 {
      PrefillFeed(ctx, prompt, slot, from, to, n - 1);
      var p := from + n - 1;
      var c := FeedRows(ctx, PrefillRows(prompt, slot, from, to), n - 1);
      assert c[slot][..p] == prompt[..p];
      assert prompt[..p] + [prompt[p]] == prompt[..p + 1];
      assert c[slot := prompt[..p + 1]] == ctx[slot := prompt[..p + 1]];
    }
  }

  lemma {:induction false} PrefillGrow(held: seq<nat>, prompt: seq<Token>, slot: nat, from: nat, to: nat, n: nat)
    requires from <= to <= |prompt| && n <= to - from && slot < |held|
    ensures n == 0 ==> Grow(held, PrefillRows(prompt, slot, from, to), n) == held
    ensures n > 0 ==> Grow(held, PrefillRows(prompt, slot, from, to), n) == held[slot := Max(held[slot], Blocks(from + n))]
  {
    if n > 0 {
      PrefillGrow(held, prompt, slot, from, to, n - 1);
    }
  }

  lemma PrefillFeedable(ctx: seq<seq<Token>>, shared: seq<nat>, maxSeq: nat, prompt: seq<Token>, slot: nat, from: nat, to: nat)
    requires |shared| == |ctx| && from <= to <= |prompt| <= maxSeq && slot < |ctx|
    requires BLOCK * shared[slot] <= from <= |ctx[slot]| && ctx[slot][..from] == prompt[..from]
    ensures Feedable(ctx, shared, maxSeq, PrefillRows(prompt, slot, from, to))
  {
    forall i | 0 <= i < to - from ensures RowFits(ctx, shared, maxSeq, PrefillRows(prompt, slot, from, to), i) {
      PrefillFeed(ctx, prompt, slot, from, to, i);
    }
  }

  lemma {:induction false} PrefillRun(ctx: seq<seq<Token>>, shared: seq<nat>, held: seq<nat>, maxSeq: nat, freeBlocks: nat,
                   prompt: seq<Token>, slot: nat, from: nat, to: nat)
    requires |shared| == |ctx| == |held| && from < to <= |prompt| <= maxSeq && slot < |ctx|
    requires BLOCK * shared[slot] <= from <= |ctx[slot]| && ctx[slot][..from] == prompt[..from]
    requires Blocks(to) <= held[slot] + freeBlocks
    ensures var rows := PrefillRows(prompt, slot, from, to);
            var n := to - from;
            && Feedable(ctx, shared, maxSeq, rows)
            && FeedRows(ctx, rows, n) == ctx[slot := prompt[..to]]
            && Grow(held, rows, n) == held[slot := Max(held[slot], Blocks(to))]
            && Sum(Grow(held, rows, n)) <= Sum(held) + freeBlocks
  {
    PrefillFeedable(ctx, shared, maxSeq, prompt, slot, from, to);
    PrefillFedAll(ctx, prompt, slot, from, to);
    PrefillGrownAll(held, prompt, slot, from, to);
  }

  lemma {:induction false} PrefillFedAll(ctx: seq<seq<Token>>, prompt: seq<Token>, slot: nat, from: nat, to: nat)
    requires from < to <= |prompt| && slot < |ctx| && from <= |ctx[slot]| && ctx[slot][..from] == prompt[..from]
    ensures FeedRows(ctx, PrefillRows(prompt, slot, from, to), to - from) == ctx[slot := prompt[..to]]
  {
    PrefillFeed(ctx, prompt, slot, from, to, to - from);
    assert from + (to - from) == to;
  }

  lemma PrefillGrownAll(held: seq<nat>, prompt: seq<Token>, slot: nat, from: nat, to: nat)
    requires from < to <= |prompt| && slot < |held|
    ensures var h := Grow(held, PrefillRows(prompt, slot, from, to), to - from);
            h == held[slot := Max(held[slot], Blocks(to))] && Sum(h) + held[slot] == Sum(held) + Max(held[slot], Blocks(to))
  {
    PrefillGrow(held, prompt, slot, from, to, to - from);
    assert from + (to - from) == to;
    SumUpdate(held, slot, Max(held[slot], Blocks(to)));
  }

  /** How a prefill selects its token: greedy, or drawn at (temperature, seed). */
  function PickSamp(m: Model, kv: seq<Entry>, samp: Option<(real, nat)>): Token {
    match samp
    case None => ArgMax(m.logits(kv))
    case Some((t, seed)) => PickTemp(m, kv, t, seed)
  }

  class BatchedDecoder {
    const m: Model
    const mMax: nat
    const maxSeq: nat
    const rowCap: nat
    const nBlocks: nat
    const firstFit: bool

    var bs: BlockState
    var pool: seq<seq<Entry>>

    ghost var ctx: seq<seq<Token>>
    ghost var shared: seq<nat>

    ghost predicate Valid()
      reads this
    {
      && rowCap > 0
      && |bs.slotBlocks| == |ctx| == |shared| == mMax
      && |pool| == nBlocks
      && bs.Ok()
      && PoolOk(m, bs, Blocks(maxSeq), pool, ctx, shared)
    }

    constructor Paged(m: Model, mMax: nat, maxSeq: nat, nBlocks: nat, firstFit: bool)
      requires Blocks(maxSeq) <= nBlocks
      ensures Valid()
      ensures this.m == m && this.mMax == mMax && this.maxSeq == maxSeq && this.nBlocks == nBlocks
      ensures rowCap == if mMax <= 128 then 128 else mMax
      ensures ctx == seq(mMax, _ => []) && shared == seq(mMax, _ => 0) && bs.Holding() == seq(mMax, _ => 0)
    {
      this.m, this.mMax, this.maxSeq, this.nBlocks, this.firstFit := m, mMax, maxSeq, nBlocks, firstFit;
      rowCap := if mMax >= PREFILL_CHUNK then mMax else PREFILL_CHUNK;
      bs := BlockState(
        seq(nBlocks, i requires 0 <= i < nBlocks => nBlocks - 1 - i),
        seq(mMax, _ => []),
        seq(nBlocks, _ => 0),
        map[],
        seq(nBlocks, _ => None),
        seq(nBlocks, _ => 0), 0);
      pool := seq(nBlocks, _ => seq(BLOCK, _ => 0));
      ctx := seq(mMax, _ => []);
      shared := seq(mMax, _ => 0);
      new;
      forall b | 0 <= b < nBlocks ensures bs.refcount[b] == Refs(bs.slotBlocks, b) && b in bs.free {
        NoRefs(bs.slotBlocks, b, mMax);
        assert bs.free[nBlocks - 1 - b] == b;
      }
    }

    static lemma {:induction false} NoRefs(sb: seq<seq<nat>>, b: nat, n: nat)
      requires n <= |sb| && forall s :: 0 <= s < |sb| ==> sb[s] == []
      ensures RefsTo(sb, b, n) == 0
    {
      if n > 0 {
        NoRefs(sb, b, n - 1);
      }
    }

    function CanFit(n: nat): bool
      requires Valid()
      reads this
    {
      bs.FreeBlocks() >= Blocks(n)
    }

    /**
     Takes an unreferenced block: a truly free one if there is one, otherwise the least recently
     used reclaimable one (lowest index under first-fit), whose cache registration is dropped.
     Fails only when every block is referenced.
     */
    method Alloc() returns (r: Option<nat>)
      requires Valid()
      modifies this`bs
      ensures r.None? ==> bs == old(bs) && bs.FreeBlocks() == 0
      ensures r.Some? ==> Taken(old(bs), bs, r.value)
      ensures r.Some? && old(bs).free != [] ==> bs.cacheMap == old(bs).cacheMap
      ensures r.Some? && old(bs).free == [] ==>
          forall c :: c in Reclaimable(old(bs).refcount, old(bs).blockHash) ==>
            if firstFit then r.value <= c else bs.lastUse[r.value] <= bs.lastUse[c]
    {
      assert Unfold(0);
      if bs.free != [] {
        var b := bs.free[|bs.free| - 1];
        assert b in bs.free;
        bs := bs.(free := bs.free[..|bs.free| - 1], refcount := bs.refcount[b := 1]);
        assert bs.blockHash == bs.blockHash[b := None];
        assert forall c :: c in old(bs).free <==> c in bs.free || c == b;
        return Some(b);
      }
      var best: Option<nat> := None;
      var i := 0;
      while i < |bs.refcount|
        invariant i <= |bs.refcount|
        invariant best.None? ==> forall c :: 0 <= c < i ==> !(bs.refcount[c] == 0 && bs.blockHash[c].Some?)
        invariant best.Some? ==> best.value < i && bs.refcount[best.value] == 0 && bs.blockHash[best.value].Some?
        invariant best.Some? ==> forall c :: 0 <= c < i && bs.refcount[c] == 0 && bs.blockHash[c].Some? ==>
            if firstFit then best.value <= c else bs.lastUse[best.value] <= bs.lastUse[c]
      {
        if bs.refcount[i] == 0 && bs.blockHash[i].Some? {
          if best.None? || (!firstFit && bs.lastUse[i] < bs.lastUse[best.value]) {
            best := Some(i);
          }
        }
        i := i + 1;
      }
      if best.None? {
        assert Reclaimable(bs.refcount, bs.blockHash) == {};
        return None;
      }
      var b := best.value;
      bs := bs.(cacheMap := bs.cacheMap - {bs.blockHash[b].value},
                blockHash := bs.blockHash[b := None],
                refcount := bs.refcount[b := 1]);
      return Some(b);
    }

    /** Appends one fresh block to `slot`; fails only when every block is referenced. */
    method Extend(slot: nat) returns (ok: bool)
      requires Valid() && slot < mMax && |bs.slotBlocks[slot]| < Blocks(maxSeq)
      modifies this`bs
      ensures Valid()
      ensures ok <==> old(bs.FreeBlocks()) > 0
      ensures ok ==> bs.FreeBlocks() + 1 == old(bs.FreeBlocks())
      ensures ok ==> bs.Holding() == old(bs.Holding())[slot := old(|bs.slotBlocks[slot]|) + 1]
      ensures ok ==> |bs.slotBlocks[slot]| == old(|bs.slotBlocks[slot]|) + 1
    {
      ghost var before := bs;
      var r := Alloc();
      if r.None? {
        return false;
      }
      AppendTaken(m, before, bs, r.value, slot, Blocks(maxSeq), pool, ctx, shared);
      AppendBooks(before, bs, r.value, slot);
      ghost var next := Append(bs, slot, r.value);
      bs := bs.(slotBlocks := bs.slotBlocks[slot := bs.slotBlocks[slot] + [r.value]]);
      assert bs == next;
      return true;
    }

    /** Makes `slot` hold at least Blocks(n) blocks; fails only when the pool runs out. */
    method EnsureBlocks(slot: nat, n: nat) returns (ok: bool)
      requires Valid() && slot < mMax && Blocks(n) <= Blocks(maxSeq)
      modifies this`bs
      ensures Valid()
      ensures ok <==> old(bs.BlocksShort(slot, n)) <= old(bs.FreeBlocks())
      ensures ok ==>
        && bs.Holding() == old(bs.Holding())[slot := Max(old(bs.Holding())[slot], Blocks(n))]
        && bs.FreeBlocks() == old(bs.FreeBlocks()) - old(bs.BlocksShort(slot, n))
    {
      var need := Blocks(n);
      var have := |bs.slotBlocks[slot]|;
      ghost var held := bs.Holding();
      if need <= have {
        assert held == held[slot := have];
        return true;
      }
      var lb: nat := have;
      while lb < need
        invariant have <= lb <= need
        invariant Valid()
        invariant |bs.slotBlocks[slot]| == lb
        invariant bs.Holding() == held[slot := lb]
        invariant bs.FreeBlocks() + (lb - have) == old(bs.FreeBlocks())
      {
        ok := Extend(slot);
        if !ok {
          return;
        }
        SetTwice(held, slot, lb, lb + 1);
        lb := lb + 1;
      }
      return true;
    }

    /** Drops `slot`'s references; uncached blocks that become unreferenced return to the free stack. */
    method FreeSlot(slot: nat)
      requires Valid() && slot < mMax
      modifies this`bs, this`ctx, this`shared
      ensures Valid()
      ensures ctx == old(ctx)[slot := []] && shared == old(shared)[slot := 0]
      ensures bs.Holding() == old(bs.Holding())[slot := 0]
      ensures bs.FreeBlocks() >= old(bs.FreeBlocks())
    {
      ghost var before := bs;
      DropRefs(slot);
      ReleaseBooks(before, bs, slot);
      ReleaseOk(m, before, bs, slot, Blocks(maxSeq), pool, ctx, shared);
      ctx := ctx[slot := []];
      shared := shared[slot := 0];
    }

    method Unreference(phys: nat)
      requires phys < |bs.refcount| == |bs.blockHash| && bs.refcount[phys] > 0
      modifies this`bs
      ensures bs == DropRef(old(bs), phys)
    {
      if bs.refcount[phys] > 0 {
        bs := bs.(refcount := bs.refcount[phys := bs.refcount[phys] - 1]);
      }
      if bs.refcount[phys] == 0 && bs.blockHash[phys].None? {
        bs := bs.(free := bs.free + [phys]);
      }
    }

    method DropRefs(slot: nat)
      requires Valid() && slot < mMax
      modifies this`bs
      ensures Released(old(bs), bs, slot) && |bs.refcount| == |old(bs).refcount|
    {
      ghost var before := bs;
      var owned := bs.slotBlocks[slot];
      StartRelease(before, slot);
      bs := bs.(slotBlocks := bs.slotBlocks[slot := []]);
      var i := 0;
      while i < |owned|
        invariant i <= |owned|
        invariant Releasing(before, bs, slot, owned, i)
      {
        ReleaseStep(before, bs, slot, owned, i);
        Unreference(owned[i]);
        i := i + 1;
      }
      EndRelease(before, bs, slot, owned);
    }

    /** The rows can be run now: they land in resident contexts and their blocks are available. */
    ghost predicate CanForward(rows: seq<Row>)
      requires Valid()
      reads this
    {
      && Feedable(ctx, shared, maxSeq, rows)
      && Sum(Grow(bs.Holding(), rows, |rows|)) <= Sum(bs.Holding()) + bs.FreeBlocks()
    }

    /** Allocates one row's block. The assertion that the pool is not exhausted holds. */
    method PrepareRow(r: Row)
      requires Valid() && r.slot < mMax && r.pos < maxSeq
      requires Sum(GrowRow(bs.Holding(), r)) <= Sum(bs.Holding()) + bs.FreeBlocks()
      modifies this`bs
      ensures Valid()
      ensures bs.Holding() == GrowRow(old(bs.Holding()), r)
      ensures bs.FreeBlocks() + Sum(bs.Holding()) == old(bs.FreeBlocks()) + Sum(old(bs.Holding()))
    {
      GrowRowSum(bs.Holding(), r);
      var ok := EnsureBlocks(r.slot, r.pos + 1);
      assert ok;
    }

    /** Allocates every row's block. The assertion that the pool is not exhausted holds. */
    method PreparePaging(rows: seq<Row>)
      requires Valid() && CanForward(rows)
      modifies this`bs
      ensures Valid()
      ensures bs.Holding() == Grow(old(bs.Holding()), rows, |rows|)
      ensures bs.FreeBlocks() + Sum(bs.Holding()) == old(bs.FreeBlocks()) + Sum(old(bs.Holding()))
    {
      ghost var held := bs.Holding();
      var i := 0;
      while i < |rows|
        invariant i <= |rows|
        invariant Valid()
        invariant bs.Holding() == Grow(held, rows, i)
        invariant bs.FreeBlocks() + Sum(bs.Holding()) == old(bs.FreeBlocks()) + Sum(held)
      {
        GrowMonotone(held, rows, i + 1, |rows|);
        assert RowFits(ctx, shared, maxSeq, rows, i);
        PrepareRow(rows[i]);
        i := i + 1;
      }
    }

    /** Writes one row's KV and returns the entries it attends, its own included. */
    method WriteRow(r: Row) returns (state: seq<Entry>)
      requires Valid() && r.slot < mMax
      requires BLOCK * shared[r.slot] <= r.pos <= |ctx[r.slot]| && r.pos < BLOCK * |bs.slotBlocks[r.slot]|
      modifies this`pool, this`ctx
      ensures Valid()
      ensures ctx == FeedRow(old(ctx), r)
      ensures state == KvOf(m, ctx[r.slot])
    {
      assert Unfold(0);
      var blocks := bs.slotBlocks[r.slot];
      GatherIs(m, blocks, pool, ctx[r.slot], r.pos);
      var past := Gather(blocks, pool, r.pos);
      var e := m.embed(past, r.pos, r.token);
      WriteOk(m, bs, Blocks(maxSeq), pool, ctx, shared, r.slot, r.pos, r.token);
      var b := blocks[r.pos / BLOCK];
      pool := pool[b := Put(pool[b], r.pos % BLOCK, e)];
      ctx := ctx[r.slot := ctx[r.slot][..r.pos] + [r.token]];
      assert ctx[r.slot][..r.pos] == old(ctx)[r.slot][..r.pos];
      state := past + [e];
    }

    /**
     The transformer forward over a batch of rows. Returns, per row, the entries its attention read;
     the logits of the row are a function of them.
     */
    method Forward(rows: seq<Row>) returns (states: seq<seq<Entry>>)
      requires Valid() && CanForward(rows)
      modifies this
      ensures Valid() && shared == old(shared)
      ensures ctx == FeedRows(old(ctx), rows, |rows|)
      ensures |states| == |rows| && StatesOk(m, old(ctx), rows, states)
      ensures bs.Holding() == Grow(old(bs.Holding()), rows, |rows|)
      ensures bs.FreeBlocks() + Sum(bs.Holding()) == old(bs.FreeBlocks()) + Sum(old(bs.Holding()))
    {
      hide Sum, Grow;
      ghost var start := ctx;
      ghost var held := bs.Holding();
      PreparePaging(rows);
      states := [];
      var i := 0;
      while i < |rows|
        invariant i <= |rows| && |states| == i
        invariant Valid() && shared == old(shared)
        invariant bs.Holding() == Grow(held, rows, |rows|)
        invariant bs.FreeBlocks() + Sum(bs.Holding()) == old(bs.FreeBlocks()) + Sum(held)
        invariant ctx == FeedRows(start, rows, i)
        invariant StatesOk(m, start, rows, states)
      {
        assert RowFits(start, shared, maxSeq, rows, i);
        GrowCovers(held, rows, i, |rows|);
        assert |bs.slotBlocks[rows[i].slot]| == bs.Holding()[rows[i].slot];
        var state := WriteRow(rows[i]);
        StatesExtend(m, start, rows, states, state);
        states := states + [state];
        i := i + 1;
      }
    }

    /** The rows have been run: contexts, holdings and the supply of blocks moved accordingly. */
    twostate predicate Ran(rows: seq<Row>)
      reads this
    {
      && old(Valid()) && Valid()
      && shared == old(shared)
      && ctx == FeedRows(old(ctx), rows, |rows|)
      && bs.Holding() == Grow(old(bs.Holding()), rows, |rows|)
      && bs.FreeBlocks() + Sum(bs.Holding()) == old(bs.FreeBlocks()) + Sum(old(bs.Holding()))
    }

    /** Greedy decode of a batch. The source asserts that at most `mMax` rows are decoded at once. */
    method StepSlotted(rows: seq<Row>) returns (outs: seq<Token>)
      requires Valid() && CanForward(rows) && 1 <= |rows| <= mMax
      modifies this
      ensures Ran(rows) && |outs| == |rows|
      ensures forall i :: 0 <= i < |rows| ==> rows[i].slot < mMax
      ensures forall i :: 0 <= i < |rows| ==> outs[i] == Greedy(m, Attended(old(ctx), rows, i))
    {
      var states := Forward(rows);
      outs := seq(|rows|, i requires 0 <= i < |states| => ArgMax(m.logits(states[i])));
    }

    /** Temperature decode of a batch; rows at temperature 0 or below are greedy. */
    method StepSlottedSample(rows: seq<Row>, temps: seq<real>, seeds: seq<nat>) returns (outs: seq<Token>)
      requires Valid() && CanForward(rows) && 1 <= |rows| <= mMax
      requires |temps| == |seeds| == |rows|
      modifies this
      ensures Ran(rows) && |outs| == |rows|
      ensures forall i :: 0 <= i < |rows| ==> rows[i].slot < mMax
      ensures forall i :: 0 <= i < |rows| ==>
          outs[i] == PickTemp(m, KvOf(m, Attended(old(ctx), rows, i)), temps[i], seeds[i])
    {
      var states := Forward(rows);
      outs := seq(|rows|, i requires 0 <= i < |states| && |states| == |temps| == |seeds| =>
        PickTemp(m, states[i], temps[i], seeds[i]));
    }

    /** Top-k / top-p decode of a batch; rows at temperature 0 or below take the top candidate. */
    method StepSlottedTopK(rows: seq<Row>, params: seq<SamplingParams>, seeds: seq<nat>) returns (outs: seq<Token>)
      requires Valid() && CanForward(rows) && 1 <= |rows| <= mMax
      requires |params| == |seeds| == |rows|
      modifies this
      ensures Ran(rows) && |outs| == |rows|
      ensures forall i :: 0 <= i < |rows| ==> rows[i].slot < mMax
      ensures forall i :: 0 <= i < |rows| ==>
          outs[i] == PickTopK(m, KvOf(m, Attended(old(ctx), rows, i)), params[i], seeds[i])
    {
      var states := Forward(rows);
      outs := seq(|rows|, i requires 0 <= i < |states| && |states| == |params| == |seeds| =>
        PickTopK(m, states[i], params[i], seeds[i]));
    }

    /** `slot` holds nothing. */
    ghost predicate Empty(slot: nat)
      requires slot < |ctx| && slot < |shared| && slot < |bs.slotBlocks|
      reads this
    {
      ctx[slot] == [] && shared[slot] == 0 && bs.slotBlocks[slot] == []
    }

    /** Takes over the cached block of the prompt's next full block. */
    method ReuseBlock(prompt: seq<Token>, slot: nat, lb: nat)
      requires Valid() && slot < mMax && |bs.slotBlocks[slot]| == lb < Blocks(maxSeq) && BLOCK * (lb + 1) <= |prompt|
      requires shared[slot] == lb && ctx[slot] == prompt[..BLOCK * lb]
      requires prompt[..BLOCK * (lb + 1)] in bs.cacheMap
      modifies this`bs, this`ctx, this`shared
      ensures Valid() && |bs.slotBlocks[slot]| == lb + 1
      ensures ctx == old(ctx)[slot := prompt[..BLOCK * (lb + 1)]]
      ensures shared == old(shared)[slot := lb + 1]
      ensures bs.Holding() == old(bs.Holding())[slot := lb + 1]
      ensures bs.FreeBlocks() + 1 >= old(bs.FreeBlocks())
    {
      var phys := bs.cacheMap[prompt[..BLOCK * (lb + 1)]];
      ReuseOk(m, bs, Blocks(maxSeq), pool, ctx, shared, slot, prompt, lb);
      ReuseBooks(bs, slot, phys);
      ghost var next := Reuse(bs, slot, phys);
      bs := bs.(refcount := bs.refcount[phys := bs.refcount[phys] + 1]);
      bs := bs.(clock := bs.clock + 1, lastUse := bs.lastUse[phys := bs.clock + 1]);
      bs := bs.(slotBlocks := bs.slotBlocks[slot := bs.slotBlocks[slot] + [phys]]);
      assert bs == next;
      ctx := ctx[slot := prompt[..BLOCK * (lb + 1)]];
      shared := shared[slot := lb + 1];
    }

    /**
     Points `slot` at the cached blocks of the longest cached full-block prefix of `prompt`. The
     block holding the last position is never reused. A prefix is looked up by its tokens; the
     source uses a 64-bit hash of them.
     */
    method PrefillPrefixReuse(prompt: seq<Token>, slot: nat) returns (cachedLen: nat, cachedBlocks: nat)
      requires Valid() && slot < mMax && Empty(slot) && 0 < |prompt| <= maxSeq
      modifies this`bs, this`ctx, this`shared
      ensures Valid()
      ensures cachedLen == BLOCK * cachedBlocks < |prompt|
      ensures ctx == old(ctx)[slot := prompt[..cachedLen]]
      ensures shared == old(shared)[slot := cachedBlocks]
      ensures bs.Holding() == old(bs.Holding())[slot := cachedBlocks]
      ensures bs.FreeBlocks() + cachedBlocks >= old(bs.FreeBlocks())
    {
      ghost var held, ctx0, shared0, free0 := bs.Holding(), ctx, shared, bs.FreeBlocks();
      var maxReuse: nat := (|prompt| - 1) / BLOCK;
      cachedBlocks := 0;
      assert prompt[..0] == [];
      while cachedBlocks < maxReuse && prompt[..BLOCK * (cachedBlocks + 1)] in bs.cacheMap
        invariant cachedBlocks <= maxReuse
        invariant Valid() && |bs.slotBlocks[slot]| == cachedBlocks
        invariant ctx == ctx0[slot := prompt[..BLOCK * cachedBlocks]]
        invariant shared == shared0[slot := cachedBlocks]
        invariant bs.Holding() == held[slot := cachedBlocks]
        invariant bs.FreeBlocks() + cachedBlocks >= free0
      {
        ReuseBlock(prompt, slot, cachedBlocks);
        SetTwice(held, slot, cachedBlocks, cachedBlocks + 1);
        SetTwice(shared0, slot, cachedBlocks, cachedBlocks + 1);
        cachedBlocks := cachedBlocks + 1;
      }
      cachedLen := cachedBlocks * BLOCK;
    }

    /** Enters the slot's freshly filled full blocks into the prefix cache. */
    method PrefillRegister(prompt: seq<Token>, slot: nat, cachedBlocks: nat)
      requires Valid() && slot < mMax && prompt <= ctx[slot] && cachedBlocks == shared[slot]
      modifies this`bs, this`shared
      ensures Valid()
      ensures shared == old(shared)[slot := Max(cachedBlocks, |prompt| / BLOCK)]
      ensures bs.Holding() == old(bs.Holding()) && bs.FreeBlocks() == old(bs.FreeBlocks())
    {
      ghost var slots, shared0, free0 := bs.slotBlocks, shared, bs.FreeBlocks();
      var nFull: nat := |prompt| / BLOCK;
      if cachedBlocks >= nFull {
        assert shared == shared[slot := cachedBlocks];
        return;
      }
      ResidentBlocks(slot);
      var lb: nat := cachedBlocks;
      assert shared == shared0[slot := lb];
      while lb < nFull
        invariant cachedBlocks <= lb <= nFull
        invariant Valid() && bs.slotBlocks == slots && bs.FreeBlocks() == free0
        invariant shared == shared0[slot := lb]
      {
        RegisterBlock(prompt, slot, lb);
        SetTwice(shared0, slot, lb, lb + 1);
        lb := lb + 1;
      }
    }

    /** A slot has blocks for its whole context. */
    lemma ResidentBlocks(slot: nat)
      requires Valid() && slot < mMax
      ensures |ctx[slot]| <= BLOCK * |bs.slotBlocks[slot]|
      ensures |bs.slotBlocks[slot]| <= Blocks(maxSeq)
    {
      assert Unfold(0);
    }

    /** The blocks not held by any slot are available. */
    lemma Supply()
      requires Valid()
      ensures nBlocks <= bs.FreeBlocks() + Sum(bs.Holding())
    {
      assert Unfold(0);
      ZeroLowerBound(bs.slotBlocks, bs.refcount);
    }

    method RegisterBlock(prompt: seq<Token>, slot: nat, lb: nat)
      requires Valid() && slot < mMax && prompt <= ctx[slot]
      requires shared[slot] == lb < |bs.slotBlocks[slot]| && BLOCK * (lb + 1) <= |prompt|
      modifies this`bs, this`shared
      ensures Valid() && bs.slotBlocks == old(bs.slotBlocks) && bs.FreeBlocks() == old(bs.FreeBlocks())
      ensures shared == old(shared)[slot := lb + 1]
    {
      var key := prompt[..BLOCK * (lb + 1)];
      var phys := bs.slotBlocks[slot][lb];
      RegisterOk(m, bs, Blocks(maxSeq), pool, ctx, shared, slot, prompt, lb);
      ghost var next := Register(bs, phys, key);
      if key !in bs.cacheMap {
        bs := bs.(cacheMap := bs.cacheMap[key := phys], blockHash := bs.blockHash[phys := Some(key)]);
        bs := bs.(clock := bs.clock + 1, lastUse := bs.lastUse[phys := bs.clock + 1]);
      }
      assert bs == next;
      shared := shared[slot := lb + 1];
    }

    /** A slot's row of the prompt prefix `from` is resident and writable from there on. */
    ghost predicate ReadyAt(prompt: seq<Token>, slot: nat, from: nat)
      requires Valid() && slot < mMax
      reads this
    {
      from <= |prompt| <= maxSeq && BLOCK * shared[slot] <= from <= |ctx[slot]| && ctx[slot][..from] == prompt[..from]
    }

    /**
     Prefills one chunk of the prompt from `start`. When the chunk reaches the prompt's end, also
     selects the first generated token.
     */
    method PrefillChunk(prompt: seq<Token>, slot: nat, start: nat, samp: Option<(real, nat)>)
      returns (next: nat, g: Option<Token>)
      requires Valid() && slot < mMax && start < |prompt| && ReadyAt(prompt, slot, start)
      requires bs.BlocksShort(slot, Min(start + rowCap, |prompt|)) <= bs.FreeBlocks()
      modifies this
      ensures Valid() && shared == old(shared)
      ensures next == Min(start + rowCap, |prompt|)
      ensures ctx == old(ctx)[slot := prompt[..next]]
      ensures g == if next == |prompt| then Some(PickSamp(m, KvOf(m, prompt), samp)) else None
      ensures bs.Holding() == old(bs.Holding())[slot := Max(old(bs.Holding())[slot], Blocks(next))]
      ensures bs.FreeBlocks() + Sum(bs.Holding()) == old(bs.FreeBlocks()) + Sum(old(bs.Holding()))
    {
      next := if start + rowCap <= |prompt| then start + rowCap else |prompt|;
      var rows := PrefillRows(prompt, slot, start, next);
      PrefillPlan(prompt, slot, start, next);
      var states := Forward(rows);
      assert states[|rows| - 1] == KvOf(m, Attended(old(ctx), rows, |rows| - 1));
      if next == |prompt| {
        assert prompt[..next] == prompt;
        g := Some(PickSamp(m, states[|rows| - 1], samp));
      } else {
        g := None;
      }
    }

    /** The rows of a chunk can be run, and what running them does. */
    lemma PrefillPlan(prompt: seq<Token>, slot: nat, start: nat, next: nat)
      requires Valid() && slot < mMax && start < next <= |prompt| && ReadyAt(prompt, slot, start)
      requires bs.BlocksShort(slot, next) <= bs.FreeBlocks()
      ensures var rows := PrefillRows(prompt, slot, start, next);
              && CanForward(rows)
              && FeedRows(ctx, rows, |rows|) == ctx[slot := prompt[..next]]
              && Grow(bs.Holding(), rows, |rows|) == bs.Holding()[slot := Max(bs.Holding()[slot], Blocks(next))]
    {
      PrefillRun(ctx, shared, bs.Holding(), maxSeq, bs.FreeBlocks(), prompt, slot, start, next);
    }

    /** Prefills the rest of the prompt from `start`, chunk by chunk. */
    method PrefillSlotFrom(prompt: seq<Token>, slot: nat, startPos: nat, samp: Option<(real, nat)>) returns (first: Token)
      requires Valid() && slot < mMax && startPos < |prompt| && ReadyAt(prompt, slot, startPos)
      requires bs.BlocksShort(slot, |prompt|) <= bs.FreeBlocks()
      modifies this
      ensures Valid() && shared == old(shared)
      ensures ctx == old(ctx)[slot := prompt]
      ensures first == PickSamp(m, KvOf(m, prompt), samp)
      ensures bs.Holding() == old(bs.Holding())[slot := Max(old(bs.Holding())[slot], Blocks(|prompt|))]
    {
      ghost var held := bs.Holding();
      first := 0;
      var start: nat := startPos;
      ghost var h: nat := held[slot];
      while start < |prompt|
        invariant startPos <= start <= |prompt|
        invariant Valid() && shared == old(shared)
        invariant start == startPos ==> ctx == old(ctx) && h == held[slot]
        invariant start > startPos ==> ctx == old(ctx)[slot := prompt[..start]] && h == Max(held[slot], Blocks(start))
        invariant |bs.slotBlocks[slot]| == h && bs.Holding() == held[slot := h]
        invariant bs.BlocksShort(slot, |prompt|) <= bs.FreeBlocks()
        invariant start == |prompt| ==> first == PickSamp(m, KvOf(m, prompt), samp)
      {
        var next, g := PrefillChunk(prompt, slot, start, samp);
        SumUpdate(held[slot := h], slot, Max(h, Blocks(next)));
        SetTwice(held, slot, h, Max(h, Blocks(next)));
        if g.Some? {
          first := g.value;
        }
        start := next;
        h := Max(h, Blocks(next));
        assert |bs.slotBlocks[slot]| == bs.Holding()[slot];
      }
      assert prompt[..start] == prompt;
    }

    /** Prefills a whole prompt into an empty slot, reusing and then extending the prefix cache. */
    method PrefillSlotCached(prompt: seq<Token>, slot: nat, samp: Option<(real, nat)>) returns (first: Token, cachedLen: nat)
      requires Valid() && slot < mMax && Empty(slot) && 0 < |prompt| <= maxSeq
      requires CanFit(|prompt|)
      modifies this
      ensures Valid()
      ensures ctx == old(ctx)[slot := prompt]
      ensures shared == old(shared)[slot := shared[slot]] && BLOCK * shared[slot] <= |prompt|
      ensures first == PickSamp(m, KvOf(m, prompt), samp)
      ensures bs.Holding() == old(bs.Holding())[slot := Blocks(|prompt|)]
    {
      var cachedBlocks: nat;
      cachedLen, cachedBlocks := PrefillPrefixReuse(prompt, slot);
      assert |bs.slotBlocks[slot]| == bs.Holding()[slot] == cachedBlocks;
      first := PrefillSlotFrom(prompt, slot, cachedLen, samp);
      PrefillRegister(prompt, slot, cachedBlocks);
    }

    /** Copies the KV of the first n positions out to the host and frees the slot. */
    method SwapOut(slot: nat, n: nat) returns (host: HostKv)
      requires Valid() && slot < mMax && n <= |ctx[slot]|
      modifies this`bs, this`ctx, this`shared
      ensures Valid()
      ensures HostHolds(m, host, old(ctx)[slot][..n])
      ensures ctx == old(ctx)[slot := []] && shared == old(shared)[slot := 0]
      ensures bs.Holding() == old(bs.Holding())[slot := 0]
      ensures bs.FreeBlocks() >= old(bs.FreeBlocks())
    {
      ResidentBlocks(slot);
      var nb := Blocks(n);
      var phys, physical := bs.slotBlocks[slot][..nb], pool;
      assert forall lb :: 0 <= lb < nb ==> phys[lb] == bs.slotBlocks[slot][lb];
      var blocks := seq(nb, lb requires 0 <= lb < |phys| && phys[lb] < |physical| => physical[phys[lb]]);
      host := HostKv(n, nb, blocks);
      assert SlotOk(m, bs.slotBlocks[slot], ctx[slot], pool) by { assert Unfold(0); }
      HostCopy(m, bs.slotBlocks[slot], pool, ctx[slot], n, host);
      FreeSlot(slot);
    }

    /** Writes a host blob back into fresh blocks of an empty slot; false if the pool is short. */
    method SwapIn(slot: nat, host: HostKv, ghost c: seq<Token>) returns (ok: bool)
      requires Valid() && slot < mMax && Empty(slot) && |c| <= maxSeq && HostHolds(m, host, c)
      modifies this
      ensures Valid()
      ensures ok <==> old(CanFit(host.nPos))
      ensures ok ==> ctx == old(ctx)[slot := c] && shared == old(shared)
      ensures ok ==> bs.Holding() == old(bs.Holding())[slot := Blocks(|c|)]
      ensures ok ==> bs.FreeBlocks() + Blocks(|c|) == old(bs.FreeBlocks())
    {
      ok := EnsureBlocks(slot, host.nPos);
      if !ok {
        return;
      }
      assert |bs.slotBlocks[slot]| == bs.Holding()[slot] == host.nb;
      ghost var ctx0, bs0 := ctx, bs;
      var lb: nat := 0;
      while lb < host.nb
        invariant lb <= host.nb
        invariant Valid() && ctx == ctx0 && bs == bs0 && shared == old(shared)
        invariant forall i :: 0 <= i < lb ==> pool[bs.slotBlocks[slot][i]] == host.blocks[i]
      {
        RestoreOne(slot, lb, host.blocks[lb]);
        lb := lb + 1;
      }
      RestoredContext(m, bs, Blocks(maxSeq), pool, ctx, shared, slot, c);
      ctx := ctx[slot := c];
    }

    /** Overwrites the slot's own block `lb`; its other blocks keep their contents. */
    method RestoreOne(slot: nat, lb: nat, block: seq<Entry>)
      requires Valid() && slot < mMax && ctx[slot] == [] && shared[slot] <= lb < |bs.slotBlocks[slot]| && |block| == BLOCK
      modifies this`pool
      ensures Valid()
      ensures pool[bs.slotBlocks[slot][lb]] == block
      ensures forall i :: 0 <= i < |bs.slotBlocks[slot]| && i != lb ==>
          pool[bs.slotBlocks[slot][i]] == old(pool)[bs.slotBlocks[slot][i]]
    {
      RestoreBlock(m, bs, Blocks(maxSeq), pool, ctx, shared, slot, lb, block);
      OwnBlock(slot, lb);
      pool := pool[bs.slotBlocks[slot][lb] := block];
    }

    /** A block owned alone occurs once in its slot. */
    lemma OwnBlock(slot: nat, lb: nat)
      requires Valid() && slot < mMax && shared[slot] <= lb < |bs.slotBlocks[slot]|
      ensures forall i :: 0 <= i < |bs.slotBlocks[slot]| && i != lb ==> bs.slotBlocks[slot][i] != bs.slotBlocks[slot][lb]
    {
      assert Unfold(0);
      assert OwnOk(bs.slotBlocks[slot], shared[slot], bs.refcount, bs.blockHash);
      forall i | 0 <= i < |bs.slotBlocks[slot]| && bs.slotBlocks[slot][i] == bs.slotBlocks[slot][lb] ensures i == lb {
        RefsUnique(bs.slotBlocks, bs.slotBlocks[slot][lb], slot, lb, slot, i);
      }
    }
  }
}
