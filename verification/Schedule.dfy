/**
 The scheduler's bookkeeping as values: who owns which KV slot, which request each sequence serves,
 and what its slot's KV must hold. The lemmas say that the scheduler's elementary moves keep this.
 */
module Schedule {
  import opened Wrappers
  import opened KvModel
  import opened Generation
  import opened PagedDecoder

  /** A decoding sequence; `tokens` is the prompt and everything produced, the unfed last token included. */
  datatype CbSeq = CbSeq(id: nat, slot: nat, tokens: seq<Token>, promptLen: nat, maxTokens: nat, eos: Token,
                         params: SamplingParams, baseSeed: nat)
  {
    ghost function AsJob(): Job {
      Job(id, tokens, promptLen, maxTokens, eos, params, baseSeed)
    }
  }

  /** A sequence evicted under pool pressure: recomputed (`kv` none) or restored from a host blob. */
  datatype PreemptedSeq = PreemptedSeq(id: nat, tokens: seq<Token>, promptLen: nat, maxTokens: nat, eos: Token,
                                       params: SamplingParams, baseSeed: nat, kv: Option<HostKv>)
  {
    ghost function AsJob(): Job {
      Job(id, tokens, promptLen, maxTokens, eos, params, baseSeed)
    }
  }

  /** A sequence mid-prefill; `prefillPos` is the next position to prefill. */
  datatype PrefillingSeq = PrefillingSeq(id: nat, slot: nat, prompt: seq<Token>, promptLen: nat, prefillPos: nat,
                                         cachedBlocks: nat, maxTokens: nat, eos: Token, params: SamplingParams, baseSeed: nat)
  {
    ghost function AsJob(): Job {
      Job(id, prompt, promptLen, maxTokens, eos, params, baseSeed)
    }
  }

  /** What the three kinds of sequence have in common. */
  datatype Job = Job(id: nat, tokens: seq<Token>, promptLen: nat, maxTokens: nat, eos: Token, params: SamplingParams, seed: nat)
  {
    ghost function Req(): Request
      requires promptLen <= |tokens|
    {
      Request(tokens[..promptLen], maxTokens, eos, params, seed)
    }

    ghost function Gen(): seq<Token>
      requires promptLen <= |tokens|
    {
      tokens[promptLen..]
    }
  }

  datatype Env = Env(m: Model, maxSeq: nat, mMax: nat, mode: Mode, reqs: map<nat, Request>)

  datatype Sched = Sched(free: seq<nat>, active: seq<CbSeq>, prefilling: seq<PrefillingSeq>, preempted: seq<PreemptedSeq>)

  /** Per slot: the resident context, the number of shared leading blocks, the number of blocks. */
  datatype Kv = Kv(ctx: seq<seq<Token>>, shared: seq<nat>, held: seq<nat>)
  {
    ghost predicate Shape(n: nat) {
      |ctx| == |shared| == |held| == n
    }

    ghost function Set(slot: nat, c: seq<Token>, sh: nat, h: nat): Kv
      requires slot < |ctx| && slot < |shared| && slot < |held|
    {
      Kv(ctx[slot := c], shared[slot := sh], held[slot := h])
    }
  }

  // ---------------------------------------------------------------- the invariant

  /** The sequence serves its request: same prompt and parameters, and `tokens` ends with what was emitted. */
  ghost predicate Tracked(e: Env, log: seq<Emit>, j: Job) {
    && 0 < j.promptLen <= |j.tokens|
    && j.id in e.reqs && e.reqs[j.id] == j.Req()
    && TokensOf(log, j.id) == j.Gen()
    && j.promptLen <= e.maxSeq && |j.tokens| <= e.maxSeq + 1
  }

  ghost predicate Running(j: Job) {
    j.promptLen <= |j.tokens| && !Stopped(j.Req(), j.Gen())
  }

  ghost predicate ActiveOk(e: Env, log: seq<Emit>, k: Kv, x: CbSeq)
    requires k.Shape(e.mMax)
  {
    && x.slot < e.mMax
    && Tracked(e, log, x.AsJob())
    && x.promptLen < |x.tokens|
    && x.tokens[..|x.tokens| - 1] <= k.ctx[x.slot]
    && BLOCK * k.shared[x.slot] <= |x.tokens| - 1
  }

  ghost predicate PrefillOk(e: Env, log: seq<Emit>, k: Kv, x: PrefillingSeq)
    requires k.Shape(e.mMax)
  {
    && x.slot < e.mMax
    && Tracked(e, log, x.AsJob())
    && x.promptLen == |x.prompt|
    && x.prefillPos < |x.prompt|
    && k.ctx[x.slot] == x.prompt[..x.prefillPos]
    && k.shared[x.slot] == x.cachedBlocks
    && BLOCK * x.cachedBlocks <= x.prefillPos
    && k.held[x.slot] <= Blocks(|x.prompt|)
  }

  ghost predicate PreemptOk(e: Env, log: seq<Emit>, x: PreemptedSeq) {
    && Tracked(e, log, x.AsJob())
    && Running(x.AsJob())
    && (x.kv.Some? ==> x.promptLen < |x.tokens| && HostHolds(e.m, x.kv.value, x.tokens[..|x.tokens| - 1]))
    && (e.mode.swap && x.promptLen < |x.tokens| ==> x.kv.Some?)
  }

  ghost predicate EmptySlot(k: Kv, slot: nat) {
    && slot < |k.ctx| && slot < |k.shared| && slot < |k.held|
    && k.ctx[slot] == [] && k.shared[slot] == 0 && k.held[slot] == 0
  }

  /** No slot has two owners. */
  ghost predicate SlotsApart(s: Sched) {
    && NoDup(s.free)
    && (forall i, j :: 0 <= i < j < |s.active| ==> s.active[i].slot != s.active[j].slot)
    && (forall i, j :: 0 <= i < j < |s.prefilling| ==> s.prefilling[i].slot != s.prefilling[j].slot)
    && (forall i, j :: 0 <= i < |s.active| && 0 <= j < |s.prefilling| ==> s.active[i].slot != s.prefilling[j].slot)
    && (forall i :: 0 <= i < |s.active| ==> s.active[i].slot !in s.free)
    && (forall i :: 0 <= i < |s.prefilling| ==> s.prefilling[i].slot !in s.free)
  }

  /** No request is in two places. */
  ghost predicate IdsApart(s: Sched) {
    && (forall i, j :: 0 <= i < j < |s.active| ==> s.active[i].id != s.active[j].id)
    && (forall i, j :: 0 <= i < j < |s.prefilling| ==> s.prefilling[i].id != s.prefilling[j].id)
    && (forall i, j :: 0 <= i < j < |s.preempted| ==> s.preempted[i].id != s.preempted[j].id)
    && (forall i, j :: 0 <= i < |s.active| && 0 <= j < |s.prefilling| ==> s.active[i].id != s.prefilling[j].id)
    && (forall i, j :: 0 <= i < |s.active| && 0 <= j < |s.preempted| ==> s.active[i].id != s.preempted[j].id)
    && (forall i, j :: 0 <= i < |s.prefilling| && 0 <= j < |s.preempted| ==> s.prefilling[i].id != s.preempted[j].id)
  }

  ghost predicate SlotFree(s: Sched, slot: nat) {
    && slot !in s.free
    && (forall i :: 0 <= i < |s.active| ==> s.active[i].slot != slot)
    && (forall i :: 0 <= i < |s.prefilling| ==> s.prefilling[i].slot != slot)
  }

  /** Request `id` is decoding, prefilling or preempted. */
  ghost predicate Live(s: Sched, id: nat) {
    || (exists i :: 0 <= i < |s.active| && s.active[i].id == id)
    || (exists i :: 0 <= i < |s.prefilling| && s.prefilling[i].id == id)
    || (exists i :: 0 <= i < |s.preempted| && s.preempted[i].id == id)
  }

  ghost predicate OwnersOk(e: Env, s: Sched, k: Kv, log: seq<Emit>)
    requires k.Shape(e.mMax)
  {
    && (forall i :: 0 <= i < |s.active| ==> ActiveOk(e, log, k, s.active[i]))
    && (forall i :: 0 <= i < |s.prefilling| ==> PrefillOk(e, log, k, s.prefilling[i]))
    && (forall i :: 0 <= i < |s.preempted| ==> PreemptOk(e, log, s.preempted[i]))
    && (forall i :: 0 <= i < |s.free| ==> s.free[i] < e.mMax && EmptySlot(k, s.free[i]))
  }

  /** Every token so far was drawn after a history inside the context window. */
  ghost predicate LogFits(e: Env, log: seq<Emit>) {
    forall id {:trigger TokensOf(log, id)} :: id in e.reqs ==> |e.reqs[id].prompt| + |TokensOf(log, id)| <= e.maxSeq + 1
  }

  ghost predicate SaneBody(e: Env, s: Sched, k: Kv, log: seq<Emit>) {
    && k.Shape(e.mMax)
    && SlotsApart(s)
    && IdsApart(s)
    && OwnersOk(e, s, k, log)
    && LogOk(e.m, e.mode, e.reqs, log)
    && LogFits(e, log)
    && (e.mode.noTopK ==> forall id :: id in e.reqs ==> !e.reqs[id].params.NeedsTopK())
  }

  /** The scheduler invariant, folded. */
  ghost predicate Sane(e: Env, s: Sched, k: Kv, log: seq<Emit>) {
    && k.Shape(e.mMax)
    && forall n :: Unfold(n) ==> SaneBody(e, s, k, log)
  }

  /** Every decoding sequence still has tokens to produce. */
  ghost predicate AllRunning(s: Sched, from: nat) {
    forall i :: from <= i < |s.active| ==> Running(s.active[i].AsJob())
  }

  // ---------------------------------------------------------------- removing and adding

  ghost function Without<T>(s: seq<T>, i: nat): (r: seq<T>)
    requires i < |s|
    ensures |r| == |s| - 1
    ensures forall j :: 0 <= j < i ==> r[j] == s[j]
    ensures forall j :: i <= j < |r| ==> r[j] == s[j + 1]
  {
    s[..i] + s[i + 1..]
  }

  /** A decoding sequence leaves; its slot is emptied and returned. */
  ghost function DropActive(s: Sched, i: nat): Sched
    requires i < |s.active|
  {
    s.(active := Without(s.active, i), free := s.free + [s.active[i].slot])
  }

  lemma DropActiveSlots(s: Sched, i: nat)
    requires SlotsApart(s) && i < |s.active|
    ensures SlotsApart(DropActive(s, i))
  {
  }

  lemma DropActiveIds(s: Sched, i: nat)
    requires IdsApart(s) && i < |s.active|
    ensures IdsApart(DropActive(s, i)) && !Live(DropActive(s, i), s.active[i].id)
  {
  }

  lemma DropActiveOwners(e: Env, s: Sched, k: Kv, log: seq<Emit>, i: nat)
    requires k.Shape(e.mMax) && SlotsApart(s) && OwnersOk(e, s, k, log) && i < |s.active|
    ensures OwnersOk(e, DropActive(s, i), k.Set(s.active[i].slot, [], 0, 0), log)
  {
    var slot := s.active[i].slot;
    var s', k' := DropActive(s, i), k.Set(slot, [], 0, 0);
    forall j | 0 <= j < |s'.active| ensures ActiveOk(e, log, k', s'.active[j]) {
      var o := if j < i then j else j + 1;
      assert s'.active[j] == s.active[o] && ActiveOk(e, log, k, s.active[o]);
    }
    forall j | 0 <= j < |s.prefilling| ensures PrefillOk(e, log, k', s.prefilling[j]) {
      assert PrefillOk(e, log, k, s.prefilling[j]);
    }
  }

  lemma DropActiveSane(e: Env, s: Sched, k: Kv, log: seq<Emit>, i: nat)
    requires Sane(e, s, k, log) && i < |s.active|
    ensures s.active[i].slot < e.mMax
    ensures Sane(e, DropActive(s, i), k.Set(s.active[i].slot, [], 0, 0), log)
    ensures !Live(DropActive(s, i), s.active[i].id)
  {
    assert Unfold(0);
    DropActiveSlots(s, i);
    DropActiveIds(s, i);
    DropActiveOwners(e, s, k, log, i);
  }

  /** A prefilling sequence leaves; its slot is emptied and returned. */
  ghost function DropPrefill(s: Sched, i: nat): Sched
    requires i < |s.prefilling|
  {
    s.(prefilling := Without(s.prefilling, i), free := s.free + [s.prefilling[i].slot])
  }

  lemma DropPrefillSlots(s: Sched, i: nat)
    requires SlotsApart(s) && i < |s.prefilling|
    ensures SlotsApart(DropPrefill(s, i))
  {
  }

  lemma DropPrefillIds(s: Sched, i: nat)
    requires IdsApart(s) && i < |s.prefilling|
    ensures IdsApart(DropPrefill(s, i)) && !Live(DropPrefill(s, i), s.prefilling[i].id)
  {
  }

  lemma DropPrefillOwners(e: Env, s: Sched, k: Kv, log: seq<Emit>, i: nat)
    requires k.Shape(e.mMax) && SlotsApart(s) && OwnersOk(e, s, k, log) && i < |s.prefilling|
    ensures OwnersOk(e, DropPrefill(s, i), k.Set(s.prefilling[i].slot, [], 0, 0), log)
  {
    var slot := s.prefilling[i].slot;
    var s', k' := DropPrefill(s, i), k.Set(slot, [], 0, 0);
    forall j | 0 <= j < |s.active| ensures ActiveOk(e, log, k', s.active[j]) {
      assert ActiveOk(e, log, k, s.active[j]);
    }
    forall j | 0 <= j < |s'.prefilling| ensures PrefillOk(e, log, k', s'.prefilling[j]) {
      var o := if j < i then j else j + 1;
      assert s'.prefilling[j] == s.prefilling[o] && PrefillOk(e, log, k, s.prefilling[o]);
    }
  }

  lemma DropPrefillSane(e: Env, s: Sched, k: Kv, log: seq<Emit>, i: nat)
    requires Sane(e, s, k, log) && i < |s.prefilling|
    ensures s.prefilling[i].slot < e.mMax
    ensures Sane(e, DropPrefill(s, i), k.Set(s.prefilling[i].slot, [], 0, 0), log)
    ensures !Live(DropPrefill(s, i), s.prefilling[i].id)
  {
    assert Unfold(0);
    DropPrefillSlots(s, i);
    DropPrefillIds(s, i);
    DropPrefillOwners(e, s, k, log, i);
  }

  ghost function DropPreempted(s: Sched, i: nat): Sched
    requires i < |s.preempted|
  {
    s.(preempted := Without(s.preempted, i))
  }

  lemma DropPreemptedSane(e: Env, s: Sched, k: Kv, log: seq<Emit>, i: nat)
    requires Sane(e, s, k, log) && i < |s.preempted|
    ensures Sane(e, DropPreempted(s, i), k, log)
    ensures !Live(DropPreempted(s, i), s.preempted[i].id)
    ensures PreemptOk(e, log, s.preempted[i])
  {
    assert Unfold(0);
    DropPreemptedIds(s, i);
    assert OwnersOk(e, DropPreempted(s, i), k, log);
  }

  lemma DropPreemptedIds(s: Sched, i: nat)
    requires IdsApart(s) && i < |s.preempted|
    ensures IdsApart(DropPreempted(s, i)) && !Live(DropPreempted(s, i), s.preempted[i].id)
  {
  }

  lemma PushPreemptedSane(e: Env, s: Sched, k: Kv, log: seq<Emit>, p: PreemptedSeq)
    requires Sane(e, s, k, log) && !Live(s, p.id) && PreemptOk(e, log, p)
    ensures Sane(e, s.(preempted := s.preempted + [p]), k, log)
  {
    assert Unfold(0);
    PushPreemptedIds(s, p);
    PushPreemptedOwners(e, s, k, log, p);
  }

  lemma PushPreemptedIds(s: Sched, p: PreemptedSeq)
    requires IdsApart(s) && !Live(s, p.id)
    ensures IdsApart(s.(preempted := s.preempted + [p]))
  {
  }

  lemma PushPreemptedOwners(e: Env, s: Sched, k: Kv, log: seq<Emit>, p: PreemptedSeq)
    requires k.Shape(e.mMax) && OwnersOk(e, s, k, log) && PreemptOk(e, log, p)
    ensures OwnersOk(e, s.(preempted := s.preempted + [p]), k, log)
  {
  }

  // ---------------------------------------------------------------- a slot in hand

  /** Taking the last free slot. */
  lemma TakeSlotSane(e: Env, s: Sched, k: Kv, log: seq<Emit>)
    requires Sane(e, s, k, log) && s.free != []
    ensures var slot := s.free[|s.free| - 1];
            var s' := s.(free := s.free[..|s.free| - 1]);
            Sane(e, s', k, log) && SlotFree(s', slot) && slot < e.mMax && EmptySlot(k, slot)
  {
    assert Unfold(0);
    var slot := s.free[|s.free| - 1];
    assert slot in s.free;
    var s' := s.(free := s.free[..|s.free| - 1]);
    assert SlotsApart(s');
    assert OwnersOk(e, s', k, log);
  }

  /** The KV of a slot in hand may change at will. */
  lemma SetKvSane(e: Env, s: Sched, k: Kv, log: seq<Emit>, slot: nat, c: seq<Token>, sh: nat, h: nat)
    requires Sane(e, s, k, log) && SlotFree(s, slot) && slot < e.mMax
    ensures Sane(e, s, k.Set(slot, c, sh, h), log)
  {
    assert Unfold(0);
    SetKvOwners(e, s, k, log, slot, c, sh, h);
  }

  lemma SetKvOwners(e: Env, s: Sched, k: Kv, log: seq<Emit>, slot: nat, c: seq<Token>, sh: nat, h: nat)
    requires k.Shape(e.mMax) && OwnersOk(e, s, k, log) && SlotFree(s, slot) && slot < e.mMax
    ensures OwnersOk(e, s, k.Set(slot, c, sh, h), log)
  {
    var k' := k.Set(slot, c, sh, h);
    forall j | 0 <= j < |s.active| ensures ActiveOk(e, log, k', s.active[j]) {
      assert ActiveOk(e, log, k, s.active[j]);
    }
    forall j | 0 <= j < |s.prefilling| ensures PrefillOk(e, log, k', s.prefilling[j]) {
      assert PrefillOk(e, log, k, s.prefilling[j]);
    }
  }

  lemma GiveSlotSane(e: Env, s: Sched, k: Kv, log: seq<Emit>, slot: nat)
    requires Sane(e, s, k, log) && SlotFree(s, slot) && slot < e.mMax && EmptySlot(k, slot)
    ensures Sane(e, s.(free := s.free + [slot]), k, log)
  {
    assert Unfold(0);
    var s' := s.(free := s.free + [slot]);
    assert SlotsApart(s');
    assert OwnersOk(e, s', k, log);
  }

  lemma PushActiveSane(e: Env, s: Sched, k: Kv, log: seq<Emit>, x: CbSeq)
    requires Sane(e, s, k, log) && SlotFree(s, x.slot) && !Live(s, x.id) && ActiveOk(e, log, k, x)
    ensures Sane(e, s.(active := s.active + [x]), k, log)
  {
    assert Unfold(0);
    PushActiveApart(s, x);
    PushActiveOwners(e, s, k, log, x);
  }

  lemma PushActiveApart(s: Sched, x: CbSeq)
    requires SlotsApart(s) && IdsApart(s) && SlotFree(s, x.slot) && !Live(s, x.id)
    ensures SlotsApart(s.(active := s.active + [x])) && IdsApart(s.(active := s.active + [x]))
  {
  }

  lemma PushActiveOwners(e: Env, s: Sched, k: Kv, log: seq<Emit>, x: CbSeq)
    requires k.Shape(e.mMax) && OwnersOk(e, s, k, log) && ActiveOk(e, log, k, x)
    ensures OwnersOk(e, s.(active := s.active + [x]), k, log)
  {
  }

  lemma PushPrefillSane(e: Env, s: Sched, k: Kv, log: seq<Emit>, x: PrefillingSeq)
    requires Sane(e, s, k, log) && SlotFree(s, x.slot) && !Live(s, x.id) && PrefillOk(e, log, k, x)
    ensures Sane(e, s.(prefilling := s.prefilling + [x]), k, log)
  {
    assert Unfold(0);
    PushPrefillApart(s, x);
    PushPrefillOwners(e, s, k, log, x);
  }

  lemma PushPrefillApart(s: Sched, x: PrefillingSeq)
    requires SlotsApart(s) && IdsApart(s) && SlotFree(s, x.slot) && !Live(s, x.id)
    ensures SlotsApart(s.(prefilling := s.prefilling + [x])) && IdsApart(s.(prefilling := s.prefilling + [x]))
  {
  }

  lemma PushPrefillOwners(e: Env, s: Sched, k: Kv, log: seq<Emit>, x: PrefillingSeq)
    requires k.Shape(e.mMax) && OwnersOk(e, s, k, log) && PrefillOk(e, log, k, x)
    ensures OwnersOk(e, s.(prefilling := s.prefilling + [x]), k, log)
  {
  }

  /** The front prefilling sequence leaves with its slot in hand. */
  lemma PopPrefillSane(e: Env, s: Sched, k: Kv, log: seq<Emit>)
    requires Sane(e, s, k, log) && s.prefilling != []
    ensures var s' := s.(prefilling := s.prefilling[1..]);
            && Sane(e, s', k, log)
            && SlotFree(s', s.prefilling[0].slot) && !Live(s', s.prefilling[0].id)
            && PrefillOk(e, log, k, s.prefilling[0])
  {
    assert Unfold(0);
    var s' := s.(prefilling := s.prefilling[1..]);
    assert SlotsApart(s');
    assert IdsApart(s');
    assert OwnersOk(e, s', k, log);
  }

  /** The front prefilling sequence advances to `next`. */
  lemma AdvanceFrontSane(e: Env, s: Sched, k: Kv, log: seq<Emit>, next: nat, h: nat)
    requires Sane(e, s, k, log) && s.prefilling != []
    requires s.prefilling[0].prefillPos <= next < |s.prefilling[0].prompt| && h <= Blocks(|s.prefilling[0].prompt|)
    ensures var x := s.prefilling[0];
            && x.slot < e.mMax
            && Sane(e, s.(prefilling := s.prefilling[0 := x.(prefillPos := next)]),
                    k.Set(x.slot, x.prompt[..next], k.shared[x.slot], h), log)
  {
    assert Unfold(0);
    var x := s.prefilling[0];
    assert PrefillOk(e, log, k, x);
    var s' := s.(prefilling := s.prefilling[0 := x.(prefillPos := next)]);
    var k' := k.Set(x.slot, x.prompt[..next], k.shared[x.slot], h);
    assert SlotsApart(s');
    assert IdsApart(s');
    AdvanceFrontOwners(e, s, k, log, next, h);
  }

  lemma AdvanceFrontOwners(e: Env, s: Sched, k: Kv, log: seq<Emit>, next: nat, h: nat)
    requires k.Shape(e.mMax) && SlotsApart(s) && OwnersOk(e, s, k, log) && s.prefilling != []
    requires s.prefilling[0].prefillPos <= next < |s.prefilling[0].prompt| && h <= Blocks(|s.prefilling[0].prompt|)
    requires s.prefilling[0].slot < e.mMax
    ensures var x := s.prefilling[0];
            OwnersOk(e, s.(prefilling := s.prefilling[0 := x.(prefillPos := next)]),
                     k.Set(x.slot, x.prompt[..next], k.shared[x.slot], h), log)
  {
    var x := s.prefilling[0];
    var s' := s.(prefilling := s.prefilling[0 := x.(prefillPos := next)]);
    var k' := k.Set(x.slot, x.prompt[..next], k.shared[x.slot], h);
    assert PrefillOk(e, log, k, x);
    forall j | 0 <= j < |s.active| ensures ActiveOk(e, log, k', s.active[j]) {
      assert ActiveOk(e, log, k, s.active[j]);
    }
    forall j | 0 <= j < |s'.prefilling| ensures PrefillOk(e, log, k', s'.prefilling[j]) {
      if j > 0 {
        assert PrefillOk(e, log, k, s.prefilling[j]);
      }
    }
  }

  // ---------------------------------------------------------------- emitting

  ghost function NextEmit(e: Env, log: seq<Emit>, id: nat, tok: Token): Emit
    requires id in e.reqs
  {
    Emit(id, tok, Stopped(e.reqs[id], TokensOf(log, id) + [tok]))
  }

  lemma TrackedElsewhere(e: Env, log: seq<Emit>, x: Emit, j: Job)
    requires Tracked(e, log, j) && j.id != x.id
    ensures Tracked(e, log + [x], j)
  {
    TokensAppend(log, x, j.id);
  }

  /** A token for a request that is in none of the lists. */
  lemma EmitSane(e: Env, s: Sched, k: Kv, log: seq<Emit>, id: nat, tok: Token)
    requires Sane(e, s, k, log) && !Live(s, id) && id in e.reqs
    requires !Stopped(e.reqs[id], TokensOf(log, id))
    requires Exact(e.reqs[id], e.mode) ==> tok == NextToken(e.m, e.reqs[id], TokensOf(log, id))
    requires |e.reqs[id].prompt| + |TokensOf(log, id)| <= e.maxSeq
    ensures Sane(e, s, k, log + [NextEmit(e, log, id, tok)])
    ensures TokensOf(log + [NextEmit(e, log, id, tok)], id) == TokensOf(log, id) + [tok]
  {
    assert Unfold(0);
    var x := NextEmit(e, log, id, tok);
    EmitOk(e.m, e.mode, e.reqs, log, id, tok);
    TokensAppend(log, x, id);
    EmitFits(e, log, x);
    EmitOwners(e, s, k, log, x);
  }

  lemma EmitFits(e: Env, log: seq<Emit>, x: Emit)
    requires LogFits(e, log) && (x.id in e.reqs ==> |e.reqs[x.id].prompt| + |TokensOf(log, x.id)| <= e.maxSeq)
    ensures LogFits(e, log + [x])
  {
    forall id | id in e.reqs ensures |e.reqs[id].prompt| + |TokensOf(log + [x], id)| <= e.maxSeq + 1 {
      TokensAppend(log, x, id);
    }
  }

  lemma EmitOwners(e: Env, s: Sched, k: Kv, log: seq<Emit>, x: Emit)
    requires k.Shape(e.mMax) && OwnersOk(e, s, k, log) && !Live(s, x.id)
    ensures OwnersOk(e, s, k, log + [x])
  {
    forall j | 0 <= j < |s.active| ensures ActiveOk(e, log + [x], k, s.active[j]) {
      TrackedElsewhere(e, log, x, s.active[j].AsJob());
    }
    forall j | 0 <= j < |s.prefilling| ensures PrefillOk(e, log + [x], k, s.prefilling[j]) {
      TrackedElsewhere(e, log, x, s.prefilling[j].AsJob());
    }
    forall j | 0 <= j < |s.preempted| ensures PreemptOk(e, log + [x], s.preempted[j]) {
      TrackedElsewhere(e, log, x, s.preempted[j].AsJob());
    }
  }

  /** A decoding sequence takes its next token. */
  ghost function Push(s: Sched, i: nat, tok: Token): Sched
    requires i < |s.active|
  {
    s.(active := s.active[i := s.active[i].(tokens := s.active[i].tokens + [tok])])
  }

  /** The job after its next token has been emitted. */
  lemma TrackedNext(e: Env, log: seq<Emit>, j: Job, tok: Token)
    requires Tracked(e, log, j) && |j.tokens| <= e.maxSeq
    ensures Tracked(e, log + [NextEmit(e, log, j.id, tok)], j.(tokens := j.tokens + [tok]))
  {
    var j' := j.(tokens := j.tokens + [tok]);
    TokensAppend(log, NextEmit(e, log, j.id, tok), j.id);
    assert j'.tokens[..j.promptLen] == j.tokens[..j.promptLen];
    assert j'.Gen() == j.Gen() + [tok];
  }

  lemma CommitSane(e: Env, s: Sched, k: Kv, log: seq<Emit>, i: nat, tok: Token)
    requires Sane(e, s, k, log) && i < |s.active|
    requires Running(s.active[i].AsJob())
    requires s.active[i].slot < e.mMax && s.active[i].tokens <= k.ctx[s.active[i].slot]
    requires s.active[i].promptLen <= |s.active[i].tokens| <= e.maxSeq
    requires Exact(s.active[i].AsJob().Req(), e.mode) ==>
        tok == NextToken(e.m, s.active[i].AsJob().Req(), s.active[i].AsJob().Gen())
    ensures s.active[i].id in e.reqs
    ensures Sane(e, Push(s, i, tok), k, log + [NextEmit(e, log, s.active[i].id, tok)])
  {
    assert Unfold(0);
    assert ActiveOk(e, log, k, s.active[i]);
    var id := s.active[i].id;
    EmitOk(e.m, e.mode, e.reqs, log, id, tok);
    EmitFits(e, log, NextEmit(e, log, id, tok));
    CommitApart(s, i, tok);
    CommitOwners(e, s, k, log, i, tok);
  }

  lemma CommitApart(s: Sched, i: nat, tok: Token)
    requires SlotsApart(s) && IdsApart(s) && i < |s.active|
    ensures SlotsApart(Push(s, i, tok)) && IdsApart(Push(s, i, tok))
  {
  }

  lemma CommitOwners(e: Env, s: Sched, k: Kv, log: seq<Emit>, i: nat, tok: Token)
    requires k.Shape(e.mMax) && IdsApart(s) && OwnersOk(e, s, k, log) && i < |s.active|
    requires s.active[i].id in e.reqs && |s.active[i].tokens| <= e.maxSeq
    requires s.active[i].slot < e.mMax && s.active[i].tokens <= k.ctx[s.active[i].slot]
    ensures OwnersOk(e, Push(s, i, tok), k, log + [NextEmit(e, log, s.active[i].id, tok)])
  {
    var y := s.active[i];
    var x := NextEmit(e, log, y.id, tok);
    var s' := Push(s, i, tok);
    assert ActiveOk(e, log, k, y);
    TrackedNext(e, log, y.AsJob(), tok);
    assert s'.active[i].AsJob() == y.AsJob().(tokens := y.tokens + [tok]);
    assert s'.active[i].tokens[..|s'.active[i].tokens| - 1] == y.tokens;
    forall j | 0 <= j < |s'.active| ensures ActiveOk(e, log + [x], k, s'.active[j]) {
      if j != i {
        assert ActiveOk(e, log, k, s.active[j]);
        TrackedElsewhere(e, log, x, s.active[j].AsJob());
      }
    }
    forall j | 0 <= j < |s.prefilling| ensures PrefillOk(e, log + [x], k, s.prefilling[j]) {
      TrackedElsewhere(e, log, x, s.prefilling[j].AsJob());
    }
    forall j | 0 <= j < |s.preempted| ensures PreemptOk(e, log + [x], s.preempted[j]) {
      TrackedElsewhere(e, log, x, s.preempted[j].AsJob());
    }
  }

  /** A slot is not a decoding sequence's. */
  ghost predicate Idle(active: seq<CbSeq>, slot: nat) {
    forall i :: 0 <= i < |active| ==> active[i].slot != slot
  }

  /** After a decode forward every decoding sequence's whole history is resident. */
  lemma FedSane(e: Env, s: Sched, k: Kv, k': Kv, log: seq<Emit>)
    requires Sane(e, s, k, log) && k'.Shape(e.mMax) && k'.shared == k.shared
    requires forall i :: 0 <= i < |s.active| && s.active[i].slot < e.mMax ==> s.active[i].tokens <= k'.ctx[s.active[i].slot]
    requires forall t :: 0 <= t < e.mMax && Idle(s.active, t) ==> k'.ctx[t] == k.ctx[t] && k'.held[t] == k.held[t]
    ensures Sane(e, s, k', log)
  {
    assert Unfold(0);
    FedOwners(e, s, k, k', log);
  }

  lemma FedOwners(e: Env, s: Sched, k: Kv, k': Kv, log: seq<Emit>)
    requires k.Shape(e.mMax) && k'.Shape(e.mMax) && k'.shared == k.shared
    requires SlotsApart(s) && OwnersOk(e, s, k, log)
    requires forall i :: 0 <= i < |s.active| && s.active[i].slot < e.mMax ==> s.active[i].tokens <= k'.ctx[s.active[i].slot]
    requires forall t :: 0 <= t < e.mMax && Idle(s.active, t) ==> k'.ctx[t] == k.ctx[t] && k'.held[t] == k.held[t]
    ensures OwnersOk(e, s, k', log)
  {
    forall j | 0 <= j < |s.active| ensures ActiveOk(e, log, k', s.active[j]) {
      var x := s.active[j];
      assert ActiveOk(e, log, k, x);
      assert x.tokens <= k'.ctx[x.slot];
    }
    forall j | 0 <= j < |s.prefilling| ensures PrefillOk(e, log, k', s.prefilling[j]) {
      assert PrefillOk(e, log, k, s.prefilling[j]);
      assert Idle(s.active, s.prefilling[j].slot);
    }
    forall j | 0 <= j < |s.free| ensures s.free[j] < e.mMax && EmptySlot(k', s.free[j]) {
      assert s.free[j] in s.free;
      assert Idle(s.active, s.free[j]);
    }
  }

  // ---------------------------------------------------------------- new requests

  lemma NewRequestSane(e: Env, s: Sched, k: Kv, log: seq<Emit>, id: nat, r: Request)
    requires Sane(e, s, k, log) && id !in e.reqs && (e.mode.noTopK ==> !r.params.NeedsTopK()) && |r.prompt| <= e.maxSeq
    ensures Sane(e.(reqs := e.reqs[id := r]), s, k, log)
    ensures !Live(s, id) && TokensOf(log, id) == []
  {
    assert Unfold(0);
    FreshOk(e.m, e.mode, e.reqs, log, id, r);
    var e' := e.(reqs := e.reqs[id := r]);
    forall j | 0 <= j < |s.active| ensures ActiveOk(e', log, k, s.active[j]) {
      assert ActiveOk(e, log, k, s.active[j]);
    }
    forall j | 0 <= j < |s.prefilling| ensures PrefillOk(e', log, k, s.prefilling[j]) {
      assert PrefillOk(e, log, k, s.prefilling[j]);
    }
    forall j | 0 <= j < |s.preempted| ensures PreemptOk(e', log, s.preempted[j]) {
      assert PreemptOk(e, log, s.preempted[j]);
    }
  }
}
