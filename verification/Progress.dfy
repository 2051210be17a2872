/** How much work is left: tokens the admitted requests may still produce, and positions still to prefill. */
module Progress {
  import opened Wrappers
  import opened KvModel
  import opened Generation
  import opened PagedDecoder
  import opened Schedule
  import opened DecodeRows
  import opened PoolRoom

  // ---------------------------------------------------------------- tokens

  ghost function Budgets(reqs: map<nat, Request>): map<nat, nat> {
    map id | id in reqs :: Budget(reqs[id])
  }

  /** A request produces at least one token. */
  function Budget(r: Request): nat {
    if r.maxTokens >= 1 then r.maxTokens else 1
  }

  ghost function Counts(reqs: map<nat, Request>, log: seq<Emit>, n: nat): map<nat, nat>
    requires n <= |log|
  {
    map id | id in reqs :: |TokensTo(log, id, n)|
  }

  /** Every token is some request's. */
  lemma {:induction false} CountsSum(reqs: map<nat, Request>, log: seq<Emit>, n: nat)
    requires n <= |log| && forall i :: 0 <= i < |log| ==> log[i].id in reqs
    ensures SumMap(Counts(reqs, log, n)) == n
  {
    if n == 0 {
      CountsZero(reqs, log);
    } else {
      CountsSum(reqs, log, n - 1);
      CountsBump(reqs, log, n);
    }
  }

  lemma CountsZero(reqs: map<nat, Request>, log: seq<Emit>)
    ensures SumMap(Counts(reqs, log, 0)) == 0
  {
    SumMapZero(Counts(reqs, log, 0));
  }

  lemma CountsBump(reqs: map<nat, Request>, log: seq<Emit>, n: nat)
    requires 0 < n <= |log| && log[n - 1].id in reqs
    ensures SumMap(Counts(reqs, log, n)) == SumMap(Counts(reqs, log, n - 1)) + 1
  {
    CountsStep(reqs, log, n);
    var f, id := Counts(reqs, log, n - 1), log[n - 1].id;
    SumMapPut(f, id, f[id] + 1);
  }

  lemma CountsStep(reqs: map<nat, Request>, log: seq<Emit>, n: nat)
    requires 0 < n <= |log| && log[n - 1].id in reqs
    ensures var f := Counts(reqs, log, n - 1);
            var id := log[n - 1].id;
            id in f && Counts(reqs, log, n) == f[id := f[id] + 1]
  {
    var f, g, id := Counts(reqs, log, n - 1), Counts(reqs, log, n), log[n - 1].id;
    forall x | x in reqs ensures g[x] == f[id := f[id] + 1][x] {
      assert TokensTo(log, x, n) == TokensTo(log, x, n - 1) + if x == id then [log[n - 1].token] else [];
    }
    assert g.Keys == f[id := f[id] + 1].Keys;
  }

  /** The log never exceeds what the admitted requests may produce together. */
  lemma WithinBudget(m: Model, mode: Mode, reqs: map<nat, Request>, log: seq<Emit>)
    requires LogOk(m, mode, reqs, log)
    ensures |log| <= SumMap(Budgets(reqs))
  {
    forall i | 0 <= i < |log| ensures log[i].id in reqs {
      assert EntryOk(reqs, log, i);
    }
    CountsSum(reqs, log, |log|);
    var f, g := Counts(reqs, log, |log|), Budgets(reqs);
    forall id | id in f ensures f[id] <= g[id] {
      assert StreamOk(m, mode, reqs, log, id);
    }
    SumMapMonotone(f, g);
  }

  // ---------------------------------------------------------------- positions

  ghost function LeftOf(p: seq<PrefillingSeq>): (l: seq<nat>)
    ensures |l| == |p|
  {
    seq(|p|, i requires 0 <= i < |p| => Left(p[i]))
  }

  ghost function Left(x: PrefillingSeq): nat {
    if x.prefillPos <= |x.prompt| then |x.prompt| - x.prefillPos else 0
  }

  /** Positions the mid-prefill sequences still have to prefill. */
  ghost function Unprefilled(p: seq<PrefillingSeq>): nat {
    Sum(LeftOf(p))
  }

  ghost function BlocksOf(p: seq<PrefillingSeq>): (l: seq<nat>)
    ensures |l| == |p|
  {
    seq(|p|, i requires 0 <= i < |p| => Blocks(|p[i].prompt|))
  }

  /** Blocks the mid-prefill prompts need in full. */
  ghost function PromptBlocks(p: seq<PrefillingSeq>): nat {
    Sum(BlocksOf(p))
  }

  /** `p` has no more work and no larger prompts than `q`. */
  ghost predicate NoMore(p: seq<PrefillingSeq>, q: seq<PrefillingSeq>) {
    Unprefilled(p) <= Unprefilled(q) && PromptBlocks(p) <= PromptBlocks(q)
  }

  lemma DropLastNoMore(p: seq<PrefillingSeq>)
    requires p != []
    ensures NoMore(p[..|p| - 1], p)
  {
    var n := |p| - 1;
    assert LeftOf(p) == LeftOf(p[..n]) + [Left(p[n])];
    SumAppend(LeftOf(p[..n]), Left(p[n]));
    assert BlocksOf(p) == BlocksOf(p[..n]) + [Blocks(|p[n].prompt|)];
    SumAppend(BlocksOf(p[..n]), Blocks(|p[n].prompt|));
  }

  lemma DropFirstNoMore(p: seq<PrefillingSeq>)
    requires p != []
    ensures NoMore(p[1..], p)
  {
    assert LeftOf(p) == [Left(p[0])] + LeftOf(p[1..]);
    SumConcat([Left(p[0])], LeftOf(p[1..]));
    assert BlocksOf(p) == [Blocks(|p[0].prompt|)] + BlocksOf(p[1..]);
    SumConcat([Blocks(|p[0].prompt|)], BlocksOf(p[1..]));
  }

  lemma AdvanceNoMore(p: seq<PrefillingSeq>, next: nat)
    requires p != [] && p[0].prefillPos < next <= |p[0].prompt|
    ensures NoMore(p[0 := p[0].(prefillPos := next)], p)
    ensures Unprefilled(p[0 := p[0].(prefillPos := next)]) < Unprefilled(p)
  {
    var x := p[0].(prefillPos := next);
    assert LeftOf(p[0 := x]) == LeftOf(p)[0 := Left(x)];
    SumUpdate(LeftOf(p), 0, Left(x));
    assert BlocksOf(p[0 := x]) == BlocksOf(p);
  }

  // ---------------------------------------------------------------- pool size

  /**
   The pool fits the prompts being prefilled and one full-length sequence, or it reserves a
   full-length sequence per slot.
   */
  ghost predicate Roomy(p: seq<PrefillingSeq>, maxSeq: nat, mMax: nat, nBlocks: nat) {
    PromptBlocks(p) + Blocks(maxSeq) <= nBlocks || mMax * Blocks(maxSeq) <= nBlocks
  }

  lemma {:induction false} HeldWithinPrompts(e: Env, s: Sched, k: Kv, log: seq<Emit>, n: nat)
    requires Sane(e, s, k, log) && n <= |s.prefilling|
    ensures forall i :: 0 <= i < |s.prefilling| ==> s.prefilling[i].slot < |k.held|
    ensures SumAt(k.held, PrefillSlots(s), n) <= SumTo(BlocksOf(s.prefilling), n)
  {
    SlotsInRange(e, s, k, log);
    if n > 0 {
      HeldWithinPrompts(e, s, k, log, n - 1);
      PrefillHolds(e, s, k, log, n - 1);
    }
  }

  lemma PrefillHolds(e: Env, s: Sched, k: Kv, log: seq<Emit>, i: nat)
    requires Sane(e, s, k, log) && i < |s.prefilling|
    ensures PrefillOk(e, log, k, s.prefilling[i])
  {
    assert Unfold(0);
  }

  /** Either way there is room for a lone decoding sequence to grow. */
  lemma RoomyRoom(e: Env, s: Sched, k: Kv, log: seq<Emit>, nBlocks: nat)
    requires Sane(e, s, k, log) && |s.free| + |s.active| + |s.prefilling| == e.mMax && s.active != []
    requires Roomy(s.prefilling, e.maxSeq, e.mMax, nBlocks)
    ensures RoomForOne(s, k, e.maxSeq, nBlocks)
  {
    hide Sane, Blocks;
    HeldWithinPrompts(e, s, k, log, |s.prefilling|);
    if e.mMax * Blocks(e.maxSeq) <= nBlocks {
      SlotEach(e, s, k, log);
    }
  }

  /** A full-length sequence per slot leaves one for the slot that decodes. */
  lemma SlotEach(e: Env, s: Sched, k: Kv, log: seq<Emit>)
    requires Sane(e, s, k, log) && |s.prefilling| < e.mMax
    ensures PromptBlocks(s.prefilling) + Blocks(e.maxSeq) <= e.mMax * Blocks(e.maxSeq)
  {
    hide Sane, Blocks;
    PromptsFit(e, s, k, log);
    SumBound(BlocksOf(s.prefilling), Blocks(e.maxSeq), |s.prefilling|);
    Monotone(|s.prefilling| + 1, e.mMax, Blocks(e.maxSeq));
  }

  lemma PromptsFit(e: Env, s: Sched, k: Kv, log: seq<Emit>)
    requires Sane(e, s, k, log)
    ensures forall i :: 0 <= i < |s.prefilling| ==> BlocksOf(s.prefilling)[i] <= Blocks(e.maxSeq)
  {
    forall i | 0 <= i < |s.prefilling| ensures |s.prefilling[i].prompt| <= e.maxSeq {
      PrefillHolds(e, s, k, log, i);
    }
  }

  /** With nothing decoding and one prompt left, every block not its own is available. */
  lemma LonePromptFits(e: Env, s: Sched, k: Kv, log: seq<Emit>, nBlocks: nat, freeBlocks: nat, end: nat)
    requires Sane(e, s, k, log) && |s.free| + |s.active| + |s.prefilling| == e.mMax
    requires s.active == [] && |s.prefilling| == 1 && end <= |s.prefilling[0].prompt| && s.prefilling[0].slot < |k.held|
    requires nBlocks <= freeBlocks + Sum(k.held) && Blocks(e.maxSeq) <= nBlocks
    ensures ShortOf(k.held[s.prefilling[0].slot], end) <= freeBlocks
  {
    HeldByOwners(e, s, k, log);
    PrefillHolds(e, s, k, log, 0);
    assert PrefillHeld(s, k) == SumAt(k.held, PrefillSlots(s), 0) + k.held[PrefillSlots(s)[0]];
  }

  /** With no slot occupied, the whole pool is available. */
  lemma IdlePoolFits(e: Env, s: Sched, k: Kv, log: seq<Emit>, nBlocks: nat, freeBlocks: nat)
    requires Sane(e, s, k, log) && |s.free| + |s.active| + |s.prefilling| == e.mMax
    requires s.active == [] && s.prefilling == []
    requires nBlocks <= freeBlocks + Sum(k.held)
    ensures nBlocks <= freeBlocks
  {
    HeldByOwners(e, s, k, log);
  }
}
