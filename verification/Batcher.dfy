/**
 The continuous-batching scheduler: admission, chunked prefill, batched decode, speculative decode,
 preemption (recompute or swap to host) and resumption over one batched decoder.

 `log` is the ghost history of every token ever returned. `Valid` says, among other things, that each
 request's part of the log is its solo generation so far; every method extends `log` by exactly
 what it returns. A step that would write beyond the context window, or for which the pool has no
 block, fails, as the decoder's assertions do; the tokens drawn before it failed are in `log` but never
 returned.
 */
module Batcher {
  import opened Wrappers
  import opened KvModel
  import opened Generation
  import opened PagedDecoder
  import opened Schedule
  import opened DecodeRows
  import opened DecodeStep
  import opened PoolRoom
  import opened PromptLookup
  import opened DraftStep
  import opened Progress

  class ContinuousBatcher {
    const dec: BatchedDecoder
    const swapMode: bool

    var free: seq<nat>
    var active: seq<CbSeq>
    var preempted: seq<PreemptedSeq>
    var prefilling: seq<PrefillingSeq>
    var preemptions: nat

    /** No request of this run needs the top-k path. */
    ghost const noTopK: bool
    ghost var reqs: map<nat, Request>
    ghost var log: seq<Emit>

    ghost function M(): Mode {
      Mode(noTopK, swapMode)
    }

    ghost function E(): Env
      reads this
    {
      Env(dec.m, dec.maxSeq, dec.mMax, M(), reqs)
    }

    ghost function S(): Sched
      reads this
    {
      Sched(free, active, prefilling, preempted)
    }

    ghost function K(): Kv
      reads this, dec
    {
      Kv(dec.ctx, dec.shared, dec.bs.Holding())
    }

    /** The invariant between the two halves of a decode step, when finished sequences are still listed. */
    ghost predicate Core()
      reads this, dec
    {
      && dec.Valid()
      && Sane(E(), S(), K(), log)
      && |free| + |active| + |prefilling| == dec.mMax
      && Blocks(dec.maxSeq) <= dec.nBlocks
    }

    ghost predicate Valid()
      reads this, dec
    {
      Core() && AllRunning(S(), 0)
    }

    constructor WithPool(m: Model, mMax: nat, maxSeq: nat, nBlocks: nat, swapMode: bool, firstFit: bool, ghost noTopK: bool)
      requires Blocks(maxSeq) <= nBlocks
      ensures Valid() && fresh(dec)
      ensures dec.m == m && dec.mMax == mMax && dec.maxSeq == maxSeq && dec.nBlocks == nBlocks
      ensures this.noTopK == noTopK && this.swapMode == swapMode && reqs == map[] && log == []
      ensures |free| == mMax && active == [] && prefilling == [] && preempted == []
    {
      var d := new BatchedDecoder.Paged(m, mMax, maxSeq, nBlocks, firstFit);
      dec := d;
      this.swapMode := swapMode;
      this.noTopK := noTopK;
      free := seq(mMax, i requires 0 <= i < mMax => mMax - 1 - i);
      active, preempted, prefilling, preemptions := [], [], [], 0;
      reqs, log := map[], [];
    }

    predicate HasFree()
      reads this
    {
      free != []
    }

    predicate Busy()
      reads this
    {
      |active| + |prefilling| + |preempted| > 0
    }

    /** The gate of the speculative step. */
    predicate AllGreedy()
      reads this
    {
      forall x :: x in active ==> !x.params.NeedsTopK() && x.params.temp == 0.0
    }

    // -------------------------------------------------------------- giving up a slot

    /** Frees the slot of active sequence i and removes it. */
    method RemoveActive(i: nat)
      requires Core() && i < |active|
      modifies this`free, this`active, dec
      ensures Core()
      ensures S() == DropActive(old(S()), i)
      ensures !Live(S(), old(active)[i].id)
      ensures dec.bs.FreeBlocks() >= old(dec.bs.FreeBlocks())
    {
      hide Sane, Live;
      var x := active[i];
      DropActiveSane(E(), S(), K(), log, i);
      ghost var k := K().Set(x.slot, [], 0, 0);
      active := active[..i] + active[i + 1..];
      dec.FreeSlot(x.slot);
      free := free + [x.slot];
      assert K() == k;
    }

    method RemovePrefill(i: nat)
      requires Core() && i < |prefilling|
      modifies this`free, this`prefilling, dec
      ensures Core()
      ensures S() == DropPrefill(old(S()), i)
      ensures !Live(S(), old(prefilling)[i].id)
      ensures dec.bs.FreeBlocks() >= old(dec.bs.FreeBlocks())
    {
      hide Sane, Live;
      var x := prefilling[i];
      DropPrefillSane(E(), S(), K(), log, i);
      ghost var k := K().Set(x.slot, [], 0, 0);
      prefilling := prefilling[..i] + prefilling[i + 1..];
      dec.FreeSlot(x.slot);
      free := free + [x.slot];
      assert K() == k;
    }

    /**
     Drops a request wherever it is. True exactly when it was decoding, prefilling or preempted;
     afterwards it is in none of them. What was emitted stays emitted.
     */
    method Cancel(id: nat) returns (found: bool)
      requires Valid()
      modifies this`free, this`active, this`prefilling, this`preempted, dec
      ensures Valid()
      ensures found <==> old(Live(S(), id))
      ensures !Live(S(), id)
      ensures !found ==> S() == old(S())
      ensures forall x :: x != id ==> (Live(S(), x) <==> old(Live(S(), x)))
    {
      var pos := 0;
      while pos < |active|
        invariant pos <= |active|
        invariant forall i :: 0 <= i < pos ==> active[i].id != id
      {
        if active[pos].id == id {
          DropActiveLive(S(), pos);
          DropActiveRunning(S(), pos);
          RemoveActive(pos);
          return true;
        }
        pos := pos + 1;
      }
      pos := 0;
      while pos < |prefilling|
        invariant pos <= |prefilling|
        invariant forall i :: 0 <= i < pos ==> prefilling[i].id != id
      {
        if prefilling[pos].id == id {
          DropPrefillLive(S(), pos);
          RemovePrefill(pos);
          return true;
        }
        pos := pos + 1;
      }
      pos := 0;
      while pos < |preempted|
        invariant pos <= |preempted|
        invariant forall i :: 0 <= i < pos ==> preempted[i].id != id
      {
        if preempted[pos].id == id {
          DropPreemptedSane(E(), S(), K(), log, pos);
          DropPreemptedLive(S(), pos);
          preempted := preempted[..pos] + preempted[pos + 1..];
          return true;
        }
        pos := pos + 1;
      }
      return false;
    }

    // -------------------------------------------------------------- admission

    /** What the caller must respect: a fresh id. */
    ghost predicate Admissible(id: nat, r: Request)
      reads this
    {
      && id !in reqs
      && (noTopK ==> !r.params.NeedsTopK())
    }

    /**
     Queues a request for chunked prefill. Refused when the prompt is empty or too long, no slot is
     free, or the pool cannot fit the prompt; nothing is emitted yet.
     */
    method EnqueueParams(id: nat, prompt: seq<Token>, maxTokens: nat, eos: Token, params: SamplingParams, seed: nat)
      returns (ok: bool)
      requires Valid() && Admissible(id, Request(prompt, maxTokens, eos, params, seed))
      modifies this, dec
      ensures Valid() && log == old(log)
      ensures ok <==> 0 < |prompt| <= dec.maxSeq && old(HasFree()) && old(dec.CanFit(|prompt|))
      ensures ok ==> reqs == old(reqs)[id := Request(prompt, maxTokens, eos, params, seed)]
      ensures ok ==> |prefilling| == |old(prefilling)| + 1 && prefilling[|old(prefilling)|].id == id
      ensures old(prefilling) <= prefilling
      ensures active == old(active) && preempted == old(preempted)
      ensures !ok ==> reqs == old(reqs) && S() == old(S())
    {
      if prompt == [] || |prompt| > dec.maxSeq {
        return false;
      }
      if free == [] || !dec.CanFit(|prompt|) {
        return false;
      }
      ghost var r := Request(prompt, maxTokens, eos, params, seed);
      NewRequestSane(E(), S(), K(), log, id, r);
      reqs := reqs[id := r];
      var slot := TakeSlot();
      var cachedLen, cachedBlocks := dec.PrefillPrefixReuse(prompt, slot);
      var x := PrefillingSeq(id, slot, prompt, |prompt|, cachedLen, cachedBlocks, maxTokens, eos, params, seed);
      EnqueuedOk(E(), old(K()), log, x);
      SetKvSane(E(), S(), old(K()), log, slot, prompt[..cachedLen], cachedBlocks, cachedBlocks);
      assert K() == old(K()).Set(slot, prompt[..cachedLen], cachedBlocks, cachedBlocks);
      PushPrefillSane(E(), S(), K(), log, x);
      prefilling := prefilling + [x];
      return true;
    }

    /** Pops the last free slot. */
    method TakeSlot() returns (slot: nat)
      requires dec.Valid() && Sane(E(), S(), K(), log) && free != []
      modifies this`free
      ensures Sane(E(), S(), K(), log)
      ensures free == old(free)[..|old(free)| - 1]
      ensures slot < dec.mMax && SlotFree(S(), slot) && dec.Empty(slot) && EmptySlot(K(), slot)
    {
      TakeSlotSane(E(), S(), K(), log);
      slot := free[|free| - 1];
      free := free[..|free| - 1];
      assert |dec.bs.slotBlocks[slot]| == dec.bs.Holding()[slot];
    }

    /** A slot in hand, and everything else in order. */
    ghost predicate Holding(slot: nat)
      reads this, dec
    {
      && dec.Valid()
      && Sane(E(), S(), K(), log)
      && AllRunning(S(), 0)
      && |free| + |active| + |prefilling| + 1 == dec.mMax
      && Blocks(dec.maxSeq) <= dec.nBlocks
      && slot < dec.mMax && SlotFree(S(), slot)
    }

    /**
     The token `g` has been drawn for a sequence whose history `x.tokens` is resident in slot `x.slot`:
     emit it, then either free the slot (request complete) or let the sequence decode on.
     */
    method Settle(x: CbSeq, g: Token) returns (em: Emit)
      requires Holding(x.slot) && !Live(S(), x.id)
      requires Tracked(E(), log, x.AsJob()) && Running(x.AsJob()) && |x.tokens| <= dec.maxSeq
      requires x.tokens <= dec.ctx[x.slot] && BLOCK * dec.shared[x.slot] <= |x.tokens|
      requires Exact(x.AsJob().Req(), M()) ==> g == NextToken(dec.m, x.AsJob().Req(), x.AsJob().Gen())
      modifies this`free, this`active, this`log, dec
      ensures Valid()
      ensures em == NextEmit(E(), old(log), x.id, g) && log == old(log) + [em]
      ensures active == if em.done then old(active) else old(active) + [x.(tokens := x.tokens + [g])]
      ensures forall id :: Live(S(), id) <==> old(Live(S(), id)) || (id == x.id && !em.done)
    {
      em := EmitToken(x, g);
      if em.done {
        ReleaseSlot(x.slot);
      } else {
        Activate(x.(tokens := x.tokens + [g]));
      }
    }

    /** Records the next token of a sequence that is in none of the lists. */
    method EmitToken(x: CbSeq, g: Token) returns (em: Emit)
      requires Holding(x.slot) && !Live(S(), x.id)
      requires Tracked(E(), log, x.AsJob()) && Running(x.AsJob()) && |x.tokens| <= dec.maxSeq
      requires x.tokens <= dec.ctx[x.slot] && BLOCK * dec.shared[x.slot] <= |x.tokens|
      requires Exact(x.AsJob().Req(), M()) ==> g == NextToken(dec.m, x.AsJob().Req(), x.AsJob().Gen())
      modifies this`log
      ensures Holding(x.slot)
      ensures em == NextEmit(E(), old(log), x.id, g) && log == old(log) + [em]
      ensures var y := x.(tokens := x.tokens + [g]);
              ActiveOk(E(), log, K(), y) && (!em.done ==> Running(y.AsJob()))
    {
      em := Emit(x.id, g, g == x.eos || |x.tokens| + 1 - x.promptLen >= x.maxTokens);
      EmitSane(E(), S(), K(), log, x.id, g);
      SettledOk(E(), K(), log, x, g);
      SettledRunning(E(), log, x, g);
      log := log + [em];
    }

    method ReleaseSlot(slot: nat)
      requires Holding(slot)
      modifies this`free, dec
      ensures Valid() && forall id :: Live(S(), id) <==> old(Live(S(), id))
    {
      SetKvSane(E(), S(), K(), log, slot, [], 0, 0);
      ghost var k := K().Set(slot, [], 0, 0);
      dec.FreeSlot(slot);
      assert K() == k;
      GiveSlotSane(E(), S(), K(), log, slot);
      free := free + [slot];
    }

    method Activate(y: CbSeq)
      requires Holding(y.slot) && !Live(S(), y.id)
      requires ActiveOk(E(), log, K(), y) && Running(y.AsJob())
      modifies this`active
      ensures Valid() && active == old(active) + [y]
      ensures forall id :: Live(S(), id) <==> old(Live(S(), id)) || id == y.id
    {
      PushActiveSane(E(), S(), K(), log, y);
      PushActiveLive(S(), y);
      active := active + [y];
    }

    /**
     Admits a request at once: prefills the whole prompt and returns the first token. None, with
     nothing changed, when the pool cannot fit the prompt, no slot is free, or the prompt is empty or
     longer than the window, which the prefill's assertion forbids: then it has `failed`.
     */
    method AdmitParams(id: nat, prompt: seq<Token>, maxTokens: nat, eos: Token, params: SamplingParams, seed: nat)
      returns (r: Option<(Token, bool)>, failed: bool)
      requires Valid() && Admissible(id, Request(prompt, maxTokens, eos, params, seed))
      modifies this, dec
      ensures Valid()
      ensures failed <==> old(dec.CanFit(|prompt|)) && old(HasFree()) && !(0 < |prompt| <= dec.maxSeq)
      ensures r.Some? <==> old(dec.CanFit(|prompt|)) && old(HasFree()) && !failed
      ensures preempted == old(preempted) && prefilling == old(prefilling)
      ensures r.None? ==> S() == old(S()) && reqs == old(reqs) && log == old(log)
      ensures r.Some? ==>
        && reqs == old(reqs)[id := Request(prompt, maxTokens, eos, params, seed)]
        && log == old(log) + [Emit(id, r.value.0, r.value.1)]
        && r.value.0 == PickTemp(dec.m, KvOf(dec.m, prompt), params.temp, StepSeed(seed, 0))
        && r.value.1 == (r.value.0 == eos || maxTokens <= 1)
        && (Live(S(), id) <==> !r.value.1)
        && |active| == |old(active)| + (if r.value.1 then 0 else 1) && old(active) <= active
        && (!r.value.1 ==> active[|old(active)|] ==
                           CbSeq(id, active[|old(active)|].slot, prompt + [r.value.0], |prompt|, maxTokens, eos, params, seed))
    {
      if !dec.CanFit(|prompt|) {
        return None, false;
      }
      if free == [] {
        return None, false;
      }
      if prompt == [] || |prompt| > dec.maxSeq {
        return None, true;
      }
      var x, g := PrefillNew(id, prompt, maxTokens, eos, params, seed);
      var em := Settle(x, g);
      return Some((em.token, em.done)), false;
    }

    /** Prefills a new request's prompt into a free slot and draws its first token. */
    method PrefillNew(id: nat, prompt: seq<Token>, maxTokens: nat, eos: Token, params: SamplingParams, seed: nat)
      returns (x: CbSeq, g: Token)
      requires Valid() && Admissible(id, Request(prompt, maxTokens, eos, params, seed))
      requires free != [] && dec.CanFit(|prompt|) && 0 < |prompt| <= dec.maxSeq
      modifies this`free, this`reqs, dec
      ensures x == CbSeq(id, x.slot, prompt, |prompt|, maxTokens, eos, params, seed)
      ensures reqs == old(reqs)[id := Request(prompt, maxTokens, eos, params, seed)] && TokensOf(log, id) == []
      ensures Holding(x.slot) && S() == old(S()).(free := free) && !Live(S(), id)
      ensures Tracked(E(), log, x.AsJob()) && Running(x.AsJob())
      ensures dec.ctx[x.slot] == prompt && BLOCK * dec.shared[x.slot] <= |prompt|
      ensures g == PickTemp(dec.m, KvOf(dec.m, prompt), params.temp, StepSeed(seed, 0))
      ensures g == NextToken(dec.m, x.AsJob().Req(), x.AsJob().Gen())
    {
      ghost var req := Request(prompt, maxTokens, eos, params, seed);
      NewRequestSane(E(), S(), K(), log, id, req);
      reqs := reqs[id := req];
      var slot := TakeSlot();
      var samp := if params.temp > 0.0 then Some((params.temp, StepSeed(seed, 0))) else None;
      ghost var s, k := S(), K();
      var cachedLen;
      g, cachedLen := dec.PrefillSlotCached(prompt, slot, samp);
      assert K() == k.Set(slot, prompt, dec.shared[slot], Blocks(|prompt|));
      SetKvSane(E(), s, k, log, slot, prompt, dec.shared[slot], Blocks(|prompt|));
      x := CbSeq(id, slot, prompt, |prompt|, maxTokens, eos, params, seed);
      FreshJob(E(), log, x);
    }

    // -------------------------------------------------------------- preemption

    /** Evicts the most recently admitted decoding sequence; false if there is none. */
    method PreemptLastActive() returns (some: bool)
      requires Valid()
      modifies this`free, this`active, this`preempted, this`preemptions, dec
      ensures Valid()
      ensures some <==> old(active) != []
      ensures preemptions == old(preemptions) + if some then 1 else 0
      ensures !some ==> S() == old(S()) && K() == old(K()) && dec.bs == old(dec.bs)
      ensures some ==> active == old(active)[..|old(active)| - 1]
      ensures some ==> |preempted| == |old(preempted)| + 1 && preempted[..|old(preempted)|] == old(preempted)
                       && IsVictim(preempted[|old(preempted)|], old(active)[|old(active)| - 1], swapMode)
      ensures some ==> old(active)[|old(active)| - 1].slot < dec.mMax
      ensures some ==> K() == old(K()).Set(old(active)[|old(active)| - 1].slot, [], 0, 0)
      ensures prefilling == old(prefilling)
      ensures forall id :: Live(S(), id) <==> old(Live(S(), id))
    {
      if active == [] {
        return false;
      }
      preemptions := preemptions + 1;
      var p := EvictLast();
      Requeue(p);
      return true;
    }

    /** Takes the last decoding sequence off its slot. */
    method EvictLast() returns (p: PreemptedSeq)
      requires Valid() && active != []
      modifies this`free, this`active, dec
      ensures Valid() && active == old(active)[..|old(active)| - 1]
      ensures old(active)[|old(active)| - 1].slot < dec.mMax
      ensures K() == old(K()).Set(old(active)[|old(active)| - 1].slot, [], 0, 0)
      ensures !Live(S(), p.id) && PreemptOk(E(), log, p) && IsVictim(p, old(active)[|old(active)| - 1], swapMode)
      ensures forall id :: Live(S(), id) || id == p.id <==> old(Live(S(), id))
    {
      ghost var s, k := S(), K();
      var victim := active[|active| - 1];
      var kv := EvictSlot();
      p := PreemptedSeq(victim.id, victim.tokens, victim.promptLen, victim.maxTokens, victim.eos, victim.params,
                        victim.baseSeed, kv);
      PreemptedOk(E(), s, k, log, |s.active| - 1, kv);
    }

    method EvictSlot() returns (kv: Option<HostKv>)
      requires Valid() && active != []
      modifies this`free, this`active, dec
      ensures Valid() && S() == Evicted(old(S()))
      ensures Without1(old(S()), S(), old(active)[|old(active)| - 1].id) && (kv.Some? <==> swapMode)
      ensures var x := old(active)[|old(active)| - 1];
              && x.slot < dec.mMax && 0 < |x.tokens| <= |old(dec.ctx)[x.slot]| + 1
              && K() == old(K()).Set(x.slot, [], 0, 0)
              && (kv.Some? ==> HostHolds(dec.m, kv.value, old(dec.ctx)[x.slot][..|x.tokens| - 1]))
    {
      hide Sane, Without1;
      ghost var s := S();
      var victim := active[|active| - 1];
      EvictSane(E(), s, K(), log);
      active := active[..|active| - 1];
      kv := EvictKv(victim.slot, |victim.tokens| - 1);
      free := free + [victim.slot];
      assert S() == Evicted(s);
    }

    /** Frees the slot's KV, copying the first n positions out first in swap mode. */
    method EvictKv(slot: nat, n: nat) returns (kv: Option<HostKv>)
      requires dec.Valid() && slot < dec.mMax && n <= |dec.ctx[slot]|
      modifies dec
      ensures dec.Valid() && K() == old(K()).Set(slot, [], 0, 0)
      ensures kv.Some? <==> swapMode
      ensures kv.Some? ==> HostHolds(dec.m, kv.value, old(dec.ctx)[slot][..n])
    {
      if swapMode {
        var host := dec.SwapOut(slot, n);
        kv := Some(host);
      } else {
        dec.FreeSlot(slot);
        kv := None;
      }
    }

    method Requeue(p: PreemptedSeq)
      requires Valid() && !Live(S(), p.id) && PreemptOk(E(), log, p)
      modifies this`preempted
      ensures Valid() && preempted == old(preempted) + [p]
      ensures forall id :: Live(S(), id) <==> old(Live(S(), id)) || id == p.id
    {
      PushPreemptedSane(E(), S(), K(), log, p);
      PushPreemptedLive(S(), p);
      preempted := preempted + [p];
    }

    /** Evicts the most recently queued prefilling sequence, never the front one. */
    method PreemptLastPrefill() returns (some: bool)
      requires Valid()
      modifies this`free, this`prefilling, this`preempted, this`preemptions, dec
      ensures Valid()
      ensures some <==> |old(prefilling)| >= 2
      ensures preemptions == old(preemptions) + if some then 1 else 0
      ensures !some ==> S() == old(S()) && K() == old(K()) && dec.bs == old(dec.bs)
      ensures some ==> prefilling == old(prefilling)[..|old(prefilling)| - 1]
      ensures active == old(active)
      ensures forall id :: Live(S(), id) <==> old(Live(S(), id))
    {
      hide Sane, PreemptOk, PrefillOk;
      if |prefilling| < 2 {
        return false;
      }
      ghost var s, k := S(), K();
      var i := |prefilling| - 1;
      var pf := prefilling[i];
      PreemptedPrefillOk(E(), s, k, log, i);
      DropPrefillSane(E(), s, k, log, i);
      DropPrefillLive(s, i);
      prefilling := prefilling[..i];
      dec.FreeSlot(pf.slot);
      assert K() == k.Set(pf.slot, [], 0, 0);
      free := free + [pf.slot];
      assert S() == DropPrefill(s, i);
      preemptions := preemptions + 1;
      Requeue(PreemptedSeq(pf.id, pf.prompt, pf.promptLen, pf.maxTokens, pf.eos, pf.params, pf.baseSeed, None));
      return true;
    }

    // -------------------------------------------------------------- one decode step

    /** `out` has been returned; a request leaves the scheduler only by being marked done. */
    twostate predicate Advanced(out: seq<Emit>)
      reads this
    {
      log == old(log) + out && reqs == old(reqs) && Follows(old(S()), old(log), S(), log)
    }

    /** The same where the method may fail, and then returns nothing. */
    twostate predicate WentOn(new r: Option<seq<Emit>>)
      reads this
    {
      && reqs == old(reqs) && Follows(old(S()), old(log), S(), log)
      && (r.Some? ==> log == old(log) + r.value)
    }

    /** The blocks the first n decoding sequences are short of. */
    function Needed(n: nat): nat
      requires n <= |active| && forall i :: 0 <= i < |active| ==> active[i].slot < |dec.bs.slotBlocks|
      reads this, dec
    {
      if n == 0 then 0 else Needed(n - 1) + dec.bs.BlocksShort(active[n - 1].slot, |active[n - 1].tokens|)
    }

    lemma {:induction false} NeededIs(n: nat)
      requires n <= |active| && forall i :: 0 <= i < |active| ==> active[i].slot < |dec.bs.slotBlocks|
      ensures Needed(n) == NeededTo(dec.bs.Holding(), active, NoDrafts(|active|), n)
    {
      if n > 0 {
        NeededIs(n - 1);
      }
    }

    /** The pool has room for the mid-prefill sequences and one full-length sequence. */
    ghost predicate Room()
      reads this, dec
    {
      RoomForOne(S(), K(), dec.maxSeq, dec.nBlocks)
    }

    /**
     Evicts decoding sequences, last first, until the blocks the rest need are available or one is left;
     that one may be short of blocks only where mid-prefill sequences leave no room for it.
     */
    method MakeRoom()
      requires Valid() && active != []
      modifies this`free, this`active, this`preempted, this`preemptions, dec
      ensures Valid() && Advanced([])
      ensures active != [] && active <= old(active) && prefilling == old(prefilling)
      ensures |active| > 1 || (old(Room()) && InWindow(active, dec.maxSeq)) ==> Comfortable()
      ensures old(Comfortable()) ==> S() == old(S())
    {
      KnowSlots();
      ghost var before, comfortable, room := S(), Comfortable(), Room();
      FollowsSame(before, log);
      while |active| > 1 && dec.bs.FreeBlocks() < Needed(|active|)
        invariant Valid() && SlotsKnown() && (room ==> Room()) && Shed(before, S(), log)
        invariant comfortable ==> Comfortable() && S() == before
        decreases |active|
      {
        ghost var s := S();
        MakeRoomStep();
        ShedNext(before, s, S(), log);
      }
      if room && |active| == 1 && |active[0].tokens| <= dec.maxSeq {
        LoneFits();
      }
    }

    ghost predicate SlotsKnown()
      reads this, dec
    {
      forall i :: 0 <= i < |active| ==> active[i].slot < |dec.bs.slotBlocks|
    }

    /** The blocks every decoding sequence needs to grow are available. */
    ghost predicate Comfortable()
      requires dec.Valid()
      reads this, dec
    {
      SlotsKnown() && Needed(|active|) <= dec.bs.FreeBlocks()
    }

    lemma KnowSlots()
      requires Valid()
      ensures SlotsKnown()
    {
      SlotsInRange(E(), S(), K(), log);
    }

    method MakeRoomStep()
      requires Valid() && |active| > 1
      modifies this`free, this`active, this`preempted, this`preemptions, dec
      ensures Valid() && SlotsKnown() && (old(Room()) ==> Room())
      ensures Shed(old(S()), S(), log) && |active| < |old(active)|
    {
      ghost var s, k := S(), K();
      SlotsInRange(E(), s, k, log);
      var some := PreemptLastActive();
      FollowsIff(s, S(), log);
      KnowSlots();
      if RoomForOne(s, k, dec.maxSeq, dec.nBlocks) {
        RoomKept(s, k, S(), K(), dec.maxSeq, dec.nBlocks, s.active[|s.active| - 1].slot);
      }
    }

    lemma {:induction false} LoneFits()
      requires Valid() && |active| == 1 && SlotsKnown() && Room() && |active[0].tokens| <= dec.maxSeq
      ensures Needed(1) <= dec.bs.FreeBlocks()
    {
      BatchLayout(E(), S(), K(), log);
      dec.Supply();
      OneFits(E(), S(), K(), log, dec.nBlocks, dec.bs.FreeBlocks());
      assert Needed(1) == Needed(0) + dec.bs.BlocksShort(active[0].slot, |active[0].tokens|);
    }

    /** Runs the batch and draws every decoding sequence's next token. */
    method ForwardActive() returns (nexts: seq<Token>)
      requires Valid() && active != [] && Comfortable() && InWindow(active, dec.maxSeq)
      modifies dec
      ensures Core() && AllMayCommit(E(), S(), K(), nexts, 0)
    {
      ghost var s, k := S(), K();
      PlanForward();
      var rows := RowsOf(active);
      nexts := DecodeNext(rows, SeedsOf(active));
      ghost var k' := Kv(FeedRows(k.ctx, rows, |rows|), k.shared, Grow(k.held, rows, |rows|));
      assert K() == k';
      StepDraws(E(), s, k, k', log, nexts);
    }

    lemma PlanForward()
      requires Valid() && Comfortable() && InWindow(active, dec.maxSeq)
      ensures Formed(active) && dec.CanForward(RowsOf(active)) && |active| <= dec.mMax
    {
      ActiveFormed(E(), S(), K(), log);
      NeededIs(|active|);
      StepPlan(E(), S(), K(), log, dec.bs.FreeBlocks());
    }

    /** Appends one token to every decoding sequence and records it. */
    method CommitAll(nexts: seq<Token>) returns (out: seq<Emit>)
      requires Core() && AllMayCommit(E(), S(), K(), nexts, 0)
      modifies this`active, this`log
      ensures Core() && Advanced(out) && |out| == |active| == |nexts|
      ensures AllSettled(S(), log, |active|)
    {
      out := [];
      var i := 0;
      ghost var before := S();
      FollowsSame(before, log);
      while i < |nexts|
        invariant i <= |nexts| == |active| && Core() && log == old(log) + out && |out| == i
        invariant AllMayCommit(E(), S(), K(), nexts, i)
        invariant AllSettled(S(), log, i)
        invariant Follows(before, old(log), S(), log)
      {
        ghost var s, log0 := S(), log;
        var em := CommitOne(i, nexts[i]);
        Assoc(old(log), out, [em]);
        out := out + [em];
        FollowsTrans(before, old(log), s, log0, S(), log);
        SettledGrows(s, log0, i, nexts[i], em);
        i := i + 1;
      }
    }

    /** Appends one token to decoding sequence i and records it. */
    method CommitOne(i: nat, tok: Token) returns (em: Emit)
      requires Core() && i < |active|
      requires active[i].slot < dec.mMax && MayCommit(E(), active[i], dec.ctx[active[i].slot], tok)
      modifies this`active, this`log
      ensures Core() && S() == Push(old(S()), i, tok)
      ensures log == old(log) + [em] && em.id == active[i].id && em.token == tok
      ensures em.done <==> !Running(active[i].AsJob())
      ensures Follows(old(S()), old(log), S(), log)
    {
      var x := active[i];
      CommitFacts(E(), S(), K(), log, i, tok);
      active := active[i := x.(tokens := x.tokens + [tok])];
      em := Emit(x.id, tok, tok == x.eos || |x.tokens| + 1 - x.promptLen >= x.maxTokens);
      log := log + [em];
    }

    /** Frees and drops every finished sequence. */
    method RetainRunning()
      requires Core() && AllSettled(S(), log, |active|)
      modifies this`free, this`active, dec
      ensures Valid() && prefilling == old(prefilling) && Advanced([])
    {
      var i := 0;
      ghost var before := S();
      FollowsSame(before, log);
      while i < |active|
        invariant i <= |active| && Core() && prefilling == old(prefilling)
        invariant forall j :: 0 <= j < i ==> Running(active[j].AsJob())
        invariant AllSettled(S(), log, |active|) && Follows(before, log, S(), log)
        decreases |active| - i
      {
        ActiveFormed(E(), S(), K(), log);
        var x := active[i];
        StillRunning(x);
        if x.tokens[|x.tokens| - 1] == x.eos || |x.tokens| - x.promptLen >= x.maxTokens {
          ghost var s := S();
          DropFollows(s, i, log);
          RemoveActive(i);
          FollowsTrans(before, log, s, log, S(), log);
        } else {
          i := i + 1;
        }
      }
    }

    /** Runs the batch through the sampler path the parameters call for. */
    method DecodeNext(rows: seq<Row>, seeds: seq<nat>) returns (nexts: seq<Token>)
      requires dec.Valid() && dec.CanForward(rows) && 1 <= |rows| <= dec.mMax
      requires |rows| == |active| == |seeds|
      modifies dec
      ensures dec.Ran(rows)
      ensures Drawn(dec.m, old(dec.ctx), rows, active, seeds, nexts)
    {
      ghost var ctx := dec.ctx;
      if exists x :: x in active && x.params.NeedsTopK() {
        nexts := dec.StepSlottedTopK(rows, ParamsOf(active), seeds);
        DrawnTopK(dec.m, ctx, rows, active, seeds, nexts);
      } else if exists x :: x in active && x.params.temp > 0.0 {
        nexts := dec.StepSlottedSample(rows, TempsOf(active), seeds);
        DrawnSampled(dec.m, ctx, rows, active, seeds, nexts);
      } else {
        nexts := dec.StepSlotted(rows);
        DrawnArgmax(dec.m, ctx, rows, active, seeds, nexts);
      }
    }

    // -------------------------------------------------------------- the three parts of a step

    /**
     Decodes one token for every decoding sequence the pool can carry, `kept`. Fails exactly when one
     of those would be fed beyond the context window, or the only one kept is still `short` of blocks.
     */
    method DecodeActive() returns (r: Option<seq<Emit>>, ghost kept: seq<CbSeq>, ghost short: bool)
      requires Valid()
      modifies this`free, this`active, this`preempted, this`preemptions, this`log, dec
      ensures Valid() && WentOn(r) && prefilling == old(prefilling)
      ensures kept <= old(active) && (old(active) != [] ==> kept != []) && (old(Comfortable()) ==> kept == old(active))
      ensures r.None? <==> !InWindow(kept, dec.maxSeq) || short
      ensures short ==> active == kept && |kept| == 1 && !Comfortable() && !old(Room())
      ensures r.None? ==> log == old(log) && (short || Outgrown(S(), dec.maxSeq))
      ensures r.Some? ==> |r.value| == |kept|
      ensures old(active) == [] ==> S() == old(S()) && log == old(log) && !short
    {
      ghost var s0 := S();
      FollowsSame(s0, log);
      if active == [] {
        return Some([]), [], false;
      }
      MakeRoom();
      kept, short := active, false;
      if exists x :: x in active && |x.tokens| > dec.maxSeq {
        return None, kept, short;
      }
      assert forall i :: 0 <= i < |active| ==> active[i] in active;
      KnowSlots();
      if dec.bs.FreeBlocks() < Needed(|active|) {
        return None, kept, true;
      }
      ghost var s1, log1 := S(), log;
      var out := DecodeBatch();
      FollowsTrans(s0, old(log), s1, log1, S(), log);
      r := Some(out);
    }

    /** Decodes one token for every decoding sequence and retires the finished ones. */
    method DecodeBatch() returns (out: seq<Emit>)
      requires Valid() && active != [] && Comfortable() && InWindow(active, dec.maxSeq)
      modifies this`free, this`active, this`log, dec
      ensures Valid() && Advanced(out) && prefilling == old(prefilling) && |out| == |old(active)|
    {
      ghost var s0 := S();
      var nexts := ForwardActive();
      out := CommitAll(nexts);
      ghost var s1, log1 := S(), log;
      RetainRunning();
      FollowsTrans(s0, old(log), s1, log1, S(), log);
    }

    /** Nothing can be done for the front prompt: it is alone and still short of blocks. */
    ghost predicate Stuck()
      requires dec.Valid()
      reads this, dec
    {
      active == [] && |prefilling| == 1 && !ChunkFits()
    }

    /** The blocks of the front prompt's next chunk are available. */
    ghost predicate ChunkFits()
      requires dec.Valid()
      reads this, dec
    {
      prefilling != [] ==>
        var x := prefilling[0];
        x.slot < |dec.bs.slotBlocks| ==>
          dec.bs.BlocksShort(x.slot, Min(x.prefillPos + dec.rowCap, |x.prompt|)) <= dec.bs.FreeBlocks()
    }

    lemma NotStuck()
      requires Valid()
      ensures !Stuck()
    {
      if active == [] && |prefilling| == 1 {
        PrefillHolds(E(), S(), K(), log, 0);
        dec.Supply();
        LonePromptFits(E(), S(), K(), log, dec.nBlocks, dec.bs.FreeBlocks(),
                       Min(prefilling[0].prefillPos + dec.rowCap, |prefilling[0].prompt|));
      }
    }

    lemma FrontKnown()
      requires Valid() && prefilling != []
      ensures prefilling[0].slot < |dec.bs.slotBlocks| && prefilling[0].promptLen == |prefilling[0].prompt|
    {
      PrefillHolds(E(), S(), K(), log, 0);
    }

    /** Evicts decoding sequences, then prefilling ones, until the front prompt's next chunk fits. */
    method ClearChunk() returns (ok: bool)
      requires Valid() && prefilling != []
      modifies this`free, this`active, this`prefilling, this`preempted, this`preemptions, dec
      ensures Valid() && Advanced([])
      ensures prefilling != [] && prefilling[0] == old(prefilling)[0] && NoMore(prefilling, old(prefilling))
      ensures ok ==> ChunkFits()
      ensures !ok ==> Stuck()
    {
      ghost var s0 := S();
      FollowsSame(s0, log);
      FrontKnown();
      var slot := prefilling[0].slot;
      var chunkEnd := Min(prefilling[0].prefillPos + dec.rowCap, prefilling[0].promptLen);
      while dec.bs.BlocksShort(slot, chunkEnd) > dec.bs.FreeBlocks()
        invariant Valid() && Follows(s0, log, S(), log) && log == old(log) && reqs == old(reqs)
        invariant prefilling != [] && prefilling[0] == s0.prefilling[0] && NoMore(prefilling, s0.prefilling)
        invariant slot < |dec.bs.slotBlocks|
        decreases |active| + |prefilling|
      {
        ghost var s := S();
        var some := PreemptOne();
        FollowsTrans(s0, log, s, log, S(), log);
        if !some {
          return false;
        }
        FrontKnown();
      }
      return true;
    }

    /** Evicts one sequence: a decoding one if there is any, else the last prefilling one but the front. */
    method PreemptOne() returns (some: bool)
      requires Valid() && prefilling != []
      modifies this`free, this`active, this`prefilling, this`preempted, this`preemptions, dec
      ensures Valid() && Advanced([])
      ensures prefilling != [] && prefilling[0] == old(prefilling)[0] && NoMore(prefilling, old(prefilling))
      ensures some ==> |active| + |prefilling| < old(|active| + |prefilling|)
      ensures !some ==> S() == old(S()) && K() == old(K()) && dec.bs == old(dec.bs) && active == [] && |prefilling| == 1
    {
      ghost var s0 := S();
      FollowsSame(s0, log);
      some := PreemptLastActive();
      if !some {
        some := PreemptLastPrefill();
        DropLastNoMore(s0.prefilling);
      }
      FollowsIff(s0, S(), log);
    }

    /** Prefills the front prompt's next chunk; a completed prompt yields its first token. */
    method RunChunk() returns (out: seq<Emit>)
      requires Valid() && prefilling != [] && ChunkFits()
      modifies this`free, this`active, this`prefilling, this`log, dec
      ensures Valid() && Advanced(out)
      ensures NoMore(prefilling, old(prefilling))
      ensures out == [] ==> Unprefilled(prefilling) < Unprefilled(old(prefilling))
    {
      ghost var s, k := S(), K();
      var x := prefilling[0];
      var next, g := ForwardChunk();
      ghost var h := Max(k.held[x.slot], Blocks(next));
      AdvanceNoMore(s.prefilling, next);
      if g.None? {
        AdvanceFrontSane(E(), s, k, log, next, h);
        AdvanceFollows(s, next, log);
        prefilling := prefilling[0 := x.(prefillPos := next)];
        return [];
      }
      DropFirstNoMore(s.prefilling);
      assert x.prompt[..next] == x.prompt;
      var em := CompleteFront(k, h, g.value);
      FinishFollows(s, old(log), S(), x.id, em);
      return [em];
    }

    /** Runs the front prompt's next chunk. */
    method ForwardChunk() returns (next: nat, g: Option<Token>)
      requires Valid() && prefilling != [] && ChunkFits()
      modifies dec
      ensures dec.Valid() && prefilling[0].slot < dec.mMax
      ensures prefilling[0].prefillPos < next <= |prefilling[0].prompt|
      ensures var x := prefilling[0];
              && K() == old(K()).Set(x.slot, x.prompt[..next], old(K()).shared[x.slot], Max(old(K()).held[x.slot], Blocks(next)))
              && Max(old(K()).held[x.slot], Blocks(next)) <= Blocks(|x.prompt|)
              && (g.Some? <==> next == |x.prompt|)
              && (g.Some? ==> g.value == PickTemp(dec.m, KvOf(dec.m, x.prompt), x.params.temp, StepSeed(x.baseSeed, 0)))
    {
      ghost var k := K();
      var x := prefilling[0];
      FrontReady(E(), S(), k, log);
      var samp := if x.params.temp > 0.0 then Some((x.params.temp, StepSeed(x.baseSeed, 0))) else None;
      next, g := dec.PrefillChunk(x.prompt, x.slot, x.prefillPos, samp);
      assert K() == k.Set(x.slot, x.prompt[..next], k.shared[x.slot], Max(k.held[x.slot], Blocks(next)));
    }

    /** The front prompt is prefilled: it leaves the queue and emits its first token. */
    method CompleteFront(ghost k: Kv, ghost h: nat, g: Token) returns (em: Emit)
      requires dec.Valid() && prefilling != [] && prefilling[0].slot < dec.mMax
      requires Sane(E(), S(), k, log) && AllRunning(S(), 0)
      requires |free| + |active| + |prefilling| == dec.mMax && Blocks(dec.maxSeq) <= dec.nBlocks
      requires var x := prefilling[0];
               && K() == k.Set(x.slot, x.prompt, k.shared[x.slot], h)
               && g == PickTemp(dec.m, KvOf(dec.m, x.prompt), x.params.temp, StepSeed(x.baseSeed, 0))
      modifies this`free, this`active, this`prefilling, this`log, dec
      ensures Valid() && prefilling == old(prefilling)[1..]
      ensures em.id == old(prefilling)[0].id && log == old(log) + [em]
      ensures var t := old(S()).(prefilling := old(prefilling)[1..]);
              forall id :: Live(S(), id) <==> Live(t, id) || (id == em.id && !em.done)
    {
      var x := prefilling[0];
      FrontReady(E(), S(), k, log);
      PopFrontSane(E(), S(), k, log, h);
      prefilling := prefilling[1..];
      em := FinishPrefill(x, g);
    }

    /** The prompt is resident: register its blocks and emit its first token. */
    method FinishPrefill(x: PrefillingSeq, g: Token) returns (em: Emit)
      requires Holding(x.slot) && !Live(S(), x.id)
      requires Tracked(E(), log, x.AsJob()) && x.promptLen == |x.prompt|
      requires dec.ctx[x.slot] == x.prompt && dec.shared[x.slot] == x.cachedBlocks && BLOCK * x.cachedBlocks <= |x.prompt|
      requires g == PickTemp(dec.m, KvOf(dec.m, x.prompt), x.params.temp, StepSeed(x.baseSeed, 0))
      modifies this`free, this`active, this`log, dec
      ensures Valid()
      ensures em == NextEmit(E(), old(log), x.id, g) && log == old(log) + [em]
      ensures forall id :: Live(S(), id) <==> old(Live(S(), id)) || (id == x.id && !em.done)
    {
      ghost var k := K();
      dec.PrefillRegister(x.prompt, x.slot, x.cachedBlocks);
      ghost var sh := dec.shared[x.slot];
      assert K() == k.Set(x.slot, k.ctx[x.slot], sh, k.held[x.slot]);
      SetKvSane(E(), S(), k, log, x.slot, k.ctx[x.slot], sh, k.held[x.slot]);
      var y := CbSeq(x.id, x.slot, x.prompt, x.promptLen, x.maxTokens, x.eos, x.params, x.baseSeed);
      PromptJob(E(), log, x);
      em := Settle(y, g);
    }

    /**
     Advances the front prompt by one chunk. It always progresses: it completes and emits its first
     token, or has fewer positions left.
     */
    method AdvancePrefill() returns (out: seq<Emit>)
      requires Valid()
      modifies this`free, this`active, this`prefilling, this`preempted, this`preemptions, this`log, dec
      ensures Valid() && Advanced(out) && NoMore(prefilling, old(prefilling))
      ensures old(prefilling) != [] && out == [] ==> Unprefilled(prefilling) < Unprefilled(old(prefilling))
      ensures old(prefilling) == [] ==> S() == old(S()) && out == []
    {
      ghost var s0 := S();
      FollowsSame(s0, log);
      if prefilling == [] {
        return [];
      }
      out := TryAdvance();
    }

    method TryAdvance() returns (out: seq<Emit>)
      requires Valid() && prefilling != []
      modifies this`free, this`active, this`prefilling, this`preempted, this`preemptions, this`log, dec
      ensures Valid() && Advanced(out) && NoMore(prefilling, old(prefilling))
      ensures out == [] ==> Unprefilled(prefilling) < Unprefilled(old(prefilling))
    {
      ghost var s0 := S();
      var ok := ClearChunk();
      NotStuck();
      if !ok {
        return [];
      }
      ghost var s1, log1 := S(), log;
      out := RunChunk();
      FollowsTrans(s0, old(log), s1, log1, S(), log);
    }

    /** One single-row decode, by the sampler path the sequence's own parameters call for. */
    method DecodeOne(tok: Token, pos: nat, slot: nat, params: SamplingParams, seed: nat) returns (g: Token)
      requires dec.Valid() && dec.CanForward([Row(tok, pos, slot)]) && 1 <= dec.mMax
      modifies dec
      ensures dec.Ran([Row(tok, pos, slot)]) && slot < dec.mMax
      ensures g == PickOwn(dec.m, KvOf(dec.m, dec.ctx[slot]), params, seed)
    {
      var rows := [Row(tok, pos, slot)];
      ghost var ctx := dec.ctx;
      assert RowFits(ctx, dec.shared, dec.maxSeq, rows, 0);
      assert Attended(ctx, rows, 0) == FeedRows(ctx, rows, |rows|)[slot];
      var outs;
      if params.NeedsTopK() {
        outs := dec.StepSlottedTopK(rows, [params], [seed]);
      } else if params.temp > 0.0 {
        outs := dec.StepSlottedSample(rows, [params.temp], [seed]);
      } else {
        outs := dec.StepSlotted(rows);
      }
      g := outs[0];
    }

    /** A slot is in hand that a preempted sequence can be brought back into. */
    ghost predicate CanResume(p: PreemptedSeq, slot: nat)
      reads this, dec
    {
      Holding(slot) && dec.Empty(slot) && PreemptOk(E(), log, p) && dec.CanFit(|p.tokens|) && |p.tokens| <= dec.maxSeq
    }

    /**
     Brings a preempted sequence's history back into `slot` and draws its next token: from its host
     copy and one decode, or by prefilling the whole history again.
     */
    method Recall(p: PreemptedSeq, slot: nat) returns (g: Token)
      requires CanResume(p, slot)
      modifies dec
      ensures Holding(slot)
      ensures dec.ctx[slot] == p.tokens && BLOCK * dec.shared[slot] <= |p.tokens|
      ensures p.promptLen <= |p.tokens| && g == Resumed(dec.m, p)
      ensures Exact(p.AsJob().Req(), M()) ==> g == NextToken(dec.m, p.AsJob().Req(), p.AsJob().Gen())
    {
      PreemptFits(E(), S(), K(), log, p);
      var seed := StepSeed(p.baseSeed, |p.tokens| - p.promptLen);
      if p.kv.Some? {
        g := RestoreAndDecode(p, slot, seed);
      } else {
        g := Recompute(p, slot, seed);
      }
    }

    method Recompute(p: PreemptedSeq, slot: nat, seed: nat) returns (g: Token)
      requires CanResume(p, slot) && 0 < |p.tokens|
      modifies dec
      ensures Holding(slot)
      ensures dec.ctx[slot] == p.tokens && BLOCK * dec.shared[slot] <= |p.tokens|
      ensures g == PickTemp(dec.m, KvOf(dec.m, p.tokens), p.params.temp, seed)
    {
      ghost var k := K();
      var samp := if p.params.temp > 0.0 then Some((p.params.temp, seed)) else None;
      var cachedLen;
      g, cachedLen := dec.PrefillSlotCached(p.tokens, slot, samp);
      assert K() == k.Set(slot, p.tokens, dec.shared[slot], Blocks(|p.tokens|));
      SetKvSane(E(), S(), k, log, slot, p.tokens, dec.shared[slot], Blocks(|p.tokens|));
    }

    method RestoreAndDecode(p: PreemptedSeq, slot: nat, seed: nat) returns (g: Token)
      requires CanResume(p, slot) && p.kv.Some? && 0 < |p.tokens|
      modifies dec
      ensures Holding(slot)
      ensures dec.ctx[slot] == p.tokens && BLOCK * dec.shared[slot] <= |p.tokens|
      ensures g == PickOwn(dec.m, KvOf(dec.m, p.tokens), p.params, seed)
    {
      hide Sane, PreemptOk, PickOwn, KvOf, AllRunning;
      ghost var k := K();
      var n := |p.tokens| - 1;
      RestoreAll(p, slot);
      ghost var k1 := K();
      OneRow(k1.ctx, k1.shared, k1.held, dec.maxSeq, p.tokens, slot);
      g := DecodeOne(p.tokens[n], n, slot, p.params, seed);
      SlotRewritten(k, k1, slot, p.tokens[..n], Blocks(n), p.tokens, Blocks(|p.tokens|));
      assert K() == k.Set(slot, p.tokens, 0, Blocks(|p.tokens|));
      SetKvSane(E(), S(), k, log, slot, p.tokens, 0, Blocks(|p.tokens|));
    }

    /** Writes the host copy back. The pool was checked for the whole history, so this succeeds. */
    method RestoreAll(p: PreemptedSeq, slot: nat)
      requires CanResume(p, slot) && p.kv.Some? && 0 < |p.tokens|
      modifies dec
      ensures dec.Valid() && K() == old(K()).Set(slot, p.tokens[..|p.tokens| - 1], 0, Blocks(|p.tokens| - 1))
      ensures dec.bs.FreeBlocks() + Blocks(|p.tokens| - 1) >= Blocks(|p.tokens|)
    {
      ghost var k := K();
      ghost var c := p.tokens[..|p.tokens| - 1];
      var ok := dec.SwapIn(slot, p.kv.value, c);
      assert K() == k.Set(slot, c, 0, Blocks(|c|));
    }

    method PopPreempted() returns (p: PreemptedSeq)
      requires Valid() && preempted != []
      modifies this`preempted
      ensures Valid() && S() == DropPreempted(old(S()), 0) && p == old(preempted)[0]
      ensures preempted == old(preempted)[1..]
      ensures !Live(S(), p.id) && PreemptOk(E(), log, p)
    {
      assert Without(preempted, 0) == preempted[1..];
      ghost var s := DropPreempted(S(), 0);
      DropPreemptedSane(E(), S(), K(), log, 0);
      p := preempted[0];
      preempted := preempted[1..];
      assert S() == s;
    }

    /** Takes a free slot, brings the sequence's history back into it and draws its next token. */
    method BringBack(p: PreemptedSeq) returns (x: CbSeq, g: Token)
      requires Valid() && free != [] && PreemptOk(E(), log, p) && dec.CanFit(|p.tokens|) && |p.tokens| <= dec.maxSeq
      modifies this`free, dec
      ensures x == CbSeq(p.id, x.slot, p.tokens, p.promptLen, p.maxTokens, p.eos, p.params, p.baseSeed)
      ensures Holding(x.slot) && S() == old(S()).(free := free)
      ensures dec.ctx[x.slot] == p.tokens && BLOCK * dec.shared[x.slot] <= |p.tokens|
      ensures p.promptLen <= |p.tokens| && g == Resumed(dec.m, p)
      ensures Exact(p.AsJob().Req(), M()) ==> g == NextToken(dec.m, p.AsJob().Req(), p.AsJob().Gen())
    {
      hide Resumed, Sane, NextToken, PreemptOk;
      var slot := TakeSlot();
      g := Recall(p, slot);
      x := CbSeq(p.id, slot, p.tokens, p.promptLen, p.maxTokens, p.eos, p.params, p.baseSeed);
    }

    /** Resumes the preempted sequence at the front of the queue and emits its next token. */
    method ResumeOne() returns (em: Emit)
      requires Valid() && preempted != [] && free != [] && dec.CanFit(|preempted[0].tokens|)
      requires |preempted[0].tokens| <= dec.maxSeq
      modifies this`free, this`active, this`preempted, this`log, dec
      ensures Valid() && Advanced([em])
      ensures preempted == old(preempted)[1..] && prefilling == old(prefilling)
      ensures FirstResumed(dec.m, old(preempted), em)
    {
      hide Resumed, Sane, NextToken;
      ghost var s := S();
      var p := PopPreempted();
      var x, g := BringBack(p);
      assert x.AsJob() == p.AsJob();
      em := Settle(x, g);
      ResumeFollows(s, old(log), S(), em);
    }

    /** The next sequence to resume has a slot and blocks, but its history no longer fits the context window. */
    ghost predicate Blocked()
      requires dec.Valid()
      reads this, dec
    {
      preempted != [] && free != [] && dec.CanFit(|preempted[0].tokens|) && |preempted[0].tokens| > dec.maxSeq
    }

    /** Only preempted sequences are left, and the next one to resume has outgrown the context window. */
    predicate Stalled()
      reads this
    {
      active == [] && prefilling == [] && preempted != [] && |preempted[0].tokens| > dec.maxSeq
    }

    /**
     Resumes preempted sequences, first come first served, while a slot is free and the pool can hold
     them. Fails exactly when the next one has outgrown the context window.
     */
    method Reschedule() returns (r: Option<seq<Emit>>)
      requires Valid()
      modifies this`free, this`active, this`preempted, this`log, dec
      ensures Valid() && WentOn(r) && prefilling == old(prefilling)
      ensures r.None? <==> Blocked()
      ensures r.Some? && r.value != [] ==> FirstResumed(dec.m, old(preempted), r.value[0])
      ensures old(preempted != [] && active == [] && prefilling == []) && 0 < dec.mMax && r == Some([]) ==> Stalled()
    {
      var out := [];
      ghost var s0, log0 := S(), log;
      FollowsSame(s0, log);
      IdleFits();
      while preempted != [] && free != []
        invariant Valid() && log == log0 + out && reqs == old(reqs) && Follows(s0, log0, S(), log)
        invariant prefilling == old(prefilling)
        invariant out == [] ==> S() == s0 && dec.bs == old(dec.bs)
        invariant out != [] ==> FirstResumed(dec.m, s0.preempted, out[0])
        decreases |preempted|
      {
        if !dec.CanFit(|preempted[0].tokens|) {
          break;
        }
        if |preempted[0].tokens| > dec.maxSeq {
          return None;
        }
        ghost var s1, log1 := S(), log;
        var em := ResumeOne();
        FollowsTrans(s0, log0, s1, log1, S(), log);
        Assoc(log0, out, [em]);
        out := out + [em];
      }
      r := Some(out);
    }

    /** With every slot free the first preempted sequence fits, unless it has outgrown the window. */
    lemma IdleFits()
      requires Valid()
      ensures preempted != [] && active == [] && prefilling == [] && 0 < dec.mMax && |preempted[0].tokens| <= dec.maxSeq ==>
          free != [] && dec.CanFit(|preempted[0].tokens|)
    {
      if preempted != [] && active == [] && prefilling == [] {
        dec.Supply();
        IdlePoolFits(E(), S(), K(), log, dec.nBlocks, dec.bs.FreeBlocks());
      }
    }

    // -------------------------------------------------------------- the step

    /**
     One scheduler step: decode, one prefill chunk, resume. Returns every token produced. It fails
     exactly when a sequence would be fed beyond the context window, one of those decoding or the
     next to resume, or when the only sequence kept decoding is still `short` of blocks; in a roomy
     pool that does not happen. Otherwise a busy scheduler gets on: it emits a token or shortens a
     prefill, unless all that is left has outgrown the window.
     */
    method Step() returns (r: Option<seq<Emit>>, ghost kept: seq<CbSeq>, ghost short: bool)
      requires Valid()
      modifies this`free, this`active, this`prefilling, this`preempted, this`preemptions, this`log, dec
      ensures Valid() && WentOn(r)
      ensures old(Roomy(prefilling, dec.maxSeq, dec.mMax, dec.nBlocks)) ==>
                Roomy(prefilling, dec.maxSeq, dec.mMax, dec.nBlocks) && !short
      ensures short ==> active == kept && |kept| == 1 && !Comfortable() && log == old(log)
      ensures kept <= old(active) && (old(active) != [] ==> kept != []) && (old(Comfortable()) ==> kept == old(active))
      ensures r.None? <==> !InWindow(kept, dec.maxSeq) || short || Blocked()
      ensures r.None? ==> short || Outgrown(S(), dec.maxSeq)
      ensures !InWindow(kept, dec.maxSeq) ==> log == old(log)
      ensures old(Busy()) && 0 < dec.mMax && r == Some([]) ==>
                Unprefilled(prefilling) < Unprefilled(old(prefilling)) || OnlyOutgrown(S(), dec.maxSeq)
    {
      ghost var s0 := S();
      if active != [] && Roomy(prefilling, dec.maxSeq, dec.mMax, dec.nBlocks) {
        RoomyRoom(E(), S(), K(), log, dec.nBlocks);
      }
      r, kept, short := DecodeActive();
      if r.Some? {
        r := ThenAdvance(s0, old(log), r.value);
      }
    }

    /** The rest of a step that has produced `out` so far. */
    method ThenAdvance(ghost s0: Sched, ghost log0: seq<Emit>, out: seq<Emit>) returns (r: Option<seq<Emit>>)
      requires Valid() && Follows(s0, log0, S(), log) && log == log0 + out
      modifies this`free, this`active, this`prefilling, this`preempted, this`preemptions, this`log, dec
      ensures Valid() && NoMore(prefilling, old(prefilling))
      ensures reqs == old(reqs) && Follows(s0, log0, S(), log) && (r.Some? ==> out <= r.value && log == log0 + r.value)
      ensures r.None? <==> Blocked()
      ensures r.None? ==> Outgrown(S(), dec.maxSeq)
      ensures old(active == [] && Busy()) && 0 < dec.mMax && r == Some([]) ==>
                Unprefilled(prefilling) < Unprefilled(old(prefilling)) || Stalled()
    {
      ghost var s1, log1 := S(), log;
      r := AdvanceAndResume();
      FollowsTrans(s0, log0, s1, log1, S(), log);
      if r.Some? {
        Assoc(log0, out, r.value);
        r := Some(out + r.value);
      }
    }

    /** The second half of a step. */
    method AdvanceAndResume() returns (r: Option<seq<Emit>>)
      requires Valid()
      modifies this`free, this`active, this`prefilling, this`preempted, this`preemptions, this`log, dec
      ensures Valid() && WentOn(r) && NoMore(prefilling, old(prefilling))
      ensures r.None? <==> Blocked()
      ensures r.None? ==> Outgrown(S(), dec.maxSeq)
      ensures old(active == [] && Busy()) && 0 < dec.mMax && r == Some([]) ==>
                Unprefilled(prefilling) < Unprefilled(old(prefilling)) || Stalled()
    {
      ghost var s0 := S();
      var out1 := AdvancePrefill();
      ghost var s1, log1 := S(), log;
      r := Reschedule();
      FollowsTrans(s0, old(log), s1, log1, S(), log);
      if r.Some? {
        Assoc(old(log), out1, r.value);
        r := Some(out1 + r.value);
      }
    }

    /**
     Steps until nothing is left; None if a step fails, or if all that is left has outgrown the
     context window. Terminates: each step uses up part of the admitted requests' token budget or
     shortens a prefill. When it succeeds every request that was live is done. If all of them are
     exact it succeeds only when every live request's own generation fits the window, and in a roomy
     pool exactly then.
     */
    method Drain() returns (r: Option<seq<Emit>>)
      requires Valid() && 0 < dec.mMax
      modifies this`free, this`active, this`prefilling, this`preempted, this`preemptions, this`log, dec
      ensures Valid() && WentOn(r)
      ensures r.Some? ==> !Busy() && forall id :: old(Live(S(), id)) ==> Done(log, id)
      ensures (forall id :: old(Live(S(), id)) ==> id in reqs && Exact(reqs[id], M())) ==>
                var fit := forall id :: old(Live(S(), id)) ==> |reqs[id].prompt| + |Solo(dec.m, reqs[id])| <= dec.maxSeq + 1;
                && (r.Some? ==> fit)
                && (old(Roomy(prefilling, dec.maxSeq, dec.mMax, dec.nBlocks)) ==> (r.Some? <==> fit))
      ensures old(Roomy(prefilling, dec.maxSeq, dec.mMax, dec.nBlocks))
              && (forall id :: old(Live(S(), id)) ==> id in reqs && |reqs[id].prompt| + reqs[id].maxTokens <= dec.maxSeq + 1)
              ==> r.Some?
    {
      var out := [];
      ghost var s0, log0, roomy := S(), log, Roomy(prefilling, dec.maxSeq, dec.mMax, dec.nBlocks);
      FollowsSame(s0, log);
      while Busy()
        invariant Valid() && (roomy ==> Roomy(prefilling, dec.maxSeq, dec.mMax, dec.nBlocks))
        invariant log == log0 + out && reqs == old(reqs) && Follows(s0, log0, S(), log)
        decreases SumMap(Budgets(reqs)) - |log|, Unprefilled(prefilling)
      {
        ghost var s1, log1 := S(), log;
        ghost var kept, short;
        var o;
        o, kept, short := Step();
        FollowsTrans(s0, log0, s1, log1, S(), log);
        if o.None? || Stalled() {
          if !short {
            DrainFails(E(), s0, log0, S(), K(), log);
          }
          return None;
        }
        LogBounded(E(), S(), K(), log);
        Assoc(log0, out, o.value);
        out := out + o.value;
      }
      AllDone(s0, log0, S(), log);
      DrainEnds(E(), s0, S(), K(), log);
      r := Some(out);
    }

    /**
     What the callers of any sequence of these methods see: an exact request's tokens are a prefix of
     its solo generation, complete exactly when it has been marked done.
     */
    lemma StreamsExact(id: nat)
      requires Valid() && id in reqs && Exact(reqs[id], M())
      ensures TokensOf(log, id) <= Solo(dec.m, reqs[id])
      ensures Done(log, id) <==> TokensOf(log, id) == Solo(dec.m, reqs[id])
      ensures forall i, j :: 0 <= i < j < |log| && log[i].id == id && log[i].done ==> log[j].id != id
    {
      LogSane(E(), S(), K(), log);
      StreamMeaning(dec.m, M(), reqs, log, id);
    }

    // -------------------------------------------------------------- the speculative step

    /** Every slot has a full-length reservation. */
    ghost predicate Reserved()
      reads this, dec
    {
      dec.mMax * Blocks(dec.maxSeq) <= dec.nBlocks
    }

    /** Commits up to acc + 1 verified tokens of sequence i, stopping early only if it is done. */
    method CommitDraft(i: nat, ghost draft: seq<Token>, so: seq<Token>, acc: nat) returns (out: seq<Emit>, done: bool)
      requires Core() && i < |active| && Running(active[i].AsJob()) && DraftHeld(E(), K(), active[i], draft, so)
      requires acc <= |draft| < |so| && so[..acc] == draft[..acc]
      modifies this`active, this`log
      ensures Core() && MidDraft(old(S()), old(log), S(), log, i, so, out, done)
      ensures 1 <= |out| <= acc + 1 && (|out| <= acc ==> done)
    {
      ghost var s0, log0 := S(), log;
      MidStart(s0, log0, i, so);
      out, done := [], false;
      while |out| < acc + 1 && !done
        invariant |out| <= acc + 1 && (out == [] ==> !done)
        invariant Core() && MidDraft(s0, log0, S(), log, i, so, out, done)
        decreases acc + 1 - |out|
      {
        var em := CommitDraftToken(s0, log0, i, draft, so, acc, out);
        out := out + [em];
        done := em.done;
      }
    }

    /** Commits the next verified token. */
    method CommitDraftToken(ghost s0: Sched, ghost log0: seq<Emit>, i: nat, ghost draft: seq<Token>, so: seq<Token>,
                            ghost acc: nat, out: seq<Emit>) returns (em: Emit)
      requires Core() && MidDraft(s0, log0, S(), log, i, so, out, false)
      requires i < |s0.active| && DraftHeld(E(), K(), s0.active[i], draft, so)
      requires |out| <= acc <= |draft| && so[..acc] == draft[..acc]
      modifies this`active, this`log
      ensures Core() && MidDraft(s0, log0, S(), log, i, so, out + [em], em.done)
    {
      ghost var s, log1 := S(), log;
      MidMayCommit(E(), s0, log0, s, K(), log1, i, draft, so, acc, out);
      em := CommitOne(i, so[|out|]);
      MidNext(s0, log0, s, log1, S(), log, i, so, out, em);
    }

    /** Commits the agreed tokens of sequence i. */
    method CommitSegment(i: nat, seg: Segment, outs: seq<Token>) returns (out: seq<Emit>)
      requires Core() && i < |active| && SegVerified(E(), active[i], K(), seg, outs)
      modifies this`active, this`log
      ensures Core() && Advanced(out) && 1 <= |out| <= 1 + |seg.draft|
      ensures S() == TakenIn(old(S()), i, outs[seg.start..seg.start + 1 + |seg.draft|], |out|)
      ensures |active| == |old(active)| && (Running(active[i].AsJob()) || Done(log, active[i].id))
    {
      ghost var s, log0 := S(), log;
      var so := outs[seg.start..seg.start + 1 + |seg.draft|];
      var acc := Accepted(seg.draft, so);
      var done;
      out, done := CommitDraft(i, seg.draft, so, acc);
      MidEnd(s, log0, S(), log, i, so, out, done);
    }

    /** Commits every sequence's agreed tokens. */
    method CommitDrafts(layout: seq<Segment>, outs: seq<Token>) returns (out: seq<Emit>)
      requires Core() && AllVerified(E(), S(), K(), layout, outs, 0)
      modifies this`active, this`log
      ensures Core() && Advanced(out) && |active| == |old(active)| == |layout|
      ensures AllSettled(S(), log, |active|)
      ensures Grew(old(active), active, layout, |layout|) && |out| >= |layout|
      ensures Shares(old(active), layout, out)
    {
      out := [];
      ghost var s0, log0 := S(), log;
      FollowsSame(s0, log);
      var i := 0;
      while i < |layout|
        invariant i <= |layout| == |active| == |s0.active| && Core() && log == log0 + out && Follows(s0, log0, S(), log)
        invariant AllVerified(E(), S(), K(), layout, outs, i)
        invariant AllSettled(S(), log, i)
        invariant GrewSoFar(s0.active, active, layout, i) && |out| >= i
      {
        ghost var s, log1 := S(), log;
        var o := CommitSegment(i, layout[i], outs);
        FollowsTrans(s0, log0, s, log1, S(), log);
        ghost var so := outs[layout[i].start..layout[i].start + 1 + |layout[i].draft|];
        SegmentKept(E(), s, log1, S(), log, K(), layout, outs, i, so, |o|);
        GrewNext(s0.active, s, S(), layout, i, so, |o|);
        Assoc(log0, out, o);
        out := out + o;
        i := i + 1;
      }
      SharesOut(E(), s0, old(K()), log0, S(), K(), layout, out);
    }

    /** Resident contexts are no longer than the window, so no slot holds more than a full-length sequence. */
    lemma HeldBounded()
      requires Valid()
      ensures forall t :: 0 <= t < dec.mMax ==> K().held[t] <= Blocks(dec.maxSeq)
    {
      forall t | 0 <= t < dec.mMax ensures K().held[t] <= Blocks(dec.maxSeq) {
        dec.ResidentBlocks(t);
      }
    }

    /** With a full pool decoding sequences inside the window can always grow. */
    lemma AlwaysComfortable()
      requires Valid() && Reserved() && InWindow(active, dec.maxSeq)
      ensures Comfortable()
    {
      KnowSlots();
      ActiveFormed(E(), S(), K(), log);
      dec.Supply();
      HeldBounded();
      NothingShort(E(), S(), K(), log, dec.nBlocks, dec.bs.FreeBlocks());
      NeededIs(|active|);
    }

    /** Runs the batch's histories and drafts in one forward. */
    method ForwardDrafts(rows: seq<Row>, ghost drafts: seq<seq<Token>>, ghost layout: seq<Segment>) returns (outs: seq<Token>)
      requires Valid() && Formed(active) && |drafts| == |active| && dec.CanForward(rows) && 1 <= |rows| <= dec.mMax
      requires rows == AllRows(active, drafts, |active|) && LaidOut(active, drafts, layout, |active|)
      requires DraftsInWindow(active, drafts, dec.maxSeq)
      requires forall i :: 0 <= i < |active| ==> active[i].params.temp <= 0.0
      modifies dec
      ensures Core() && AllVerified(E(), S(), K(), layout, outs, 0)
    {
      ghost var s, k := S(), K();
      outs := dec.StepSlotted(rows);
      ghost var k' := Kv(FeedRows(k.ctx, rows, |rows|), k.shared, Grow(k.held, rows, |rows|));
      assert K() == k';
      assert GreedyOuts(dec.m, k.ctx, rows, outs);
      PldFed(E(), s, k, k', log, drafts, layout, outs);
    }

    lemma {:induction false} PlanDrafts(drafts: seq<seq<Token>>)
      requires Valid() && Reserved() && DraftsInWindow(active, drafts, dec.maxSeq)
      ensures Formed(active) && dec.CanForward(AllRows(active, drafts, |active|))
    {
      ActiveFormed(E(), S(), K(), log);
      dec.Supply();
      HeldBounded();
      PldPlan(E(), S(), K(), log, drafts, dec.nBlocks, dec.bs.FreeBlocks());
    }

    /** Decodes every sequence and its draft at once. */
    method DecodeDrafts(rows: seq<Row>, ghost drafts: seq<seq<Token>>, layout: seq<Segment>) returns (out: seq<Emit>)
      requires Valid() && Formed(active) && |drafts| == |active| && dec.CanForward(rows) && 1 <= |rows| <= dec.mMax
      requires rows == AllRows(active, drafts, |active|) && LaidOut(active, drafts, layout, |active|)
      requires AllGreedy() && DraftsInWindow(active, drafts, dec.maxSeq)
      modifies this`free, this`active, this`log, dec
      ensures Valid() && Advanced(out) && |out| >= |old(active)| && prefilling == old(prefilling)
      ensures PerSequence(old(active), drafts, out)
    {
      assert forall i :: 0 <= i < |active| ==> active[i] in active;
      var outs := ForwardDrafts(rows, drafts, layout);
      SharesAre(active, drafts, layout);
      out := CommitAndRetain(layout, outs);
    }

    method CommitAndRetain(layout: seq<Segment>, outs: seq<Token>) returns (out: seq<Emit>)
      requires Core() && AllVerified(E(), S(), K(), layout, outs, 0)
      modifies this`free, this`active, this`log, dec
      ensures Valid() && Advanced(out) && |out| >= |old(active)| && prefilling == old(prefilling)
      ensures Shares(old(active), layout, out)
    {
      ghost var s0 := S();
      out := CommitDrafts(layout, outs);
      ghost var s1, log1 := S(), log;
      RetainRunning();
      FollowsTrans(s0, old(log), s1, log1, S(), log);
    }

    /**
     One scheduler step with prompt-lookup drafts in the decode. It fails exactly when the drafts of
     the sequences `kept` make the batch larger than the decoder's row limit or reach beyond the
     context window, both of which the decoder's assertions forbid, or when the next sequence to
     resume has outgrown the window. Otherwise the tokens returned extend every stream as plain steps
     would: first `decoded`, between one token and its draft's length plus one for each sequence.
     */
    method StepPld(lookupLen: nat, draftK: nat) returns (r: Option<seq<Emit>>, ghost kept: seq<CbSeq>, ghost decoded: seq<Emit>)
      requires Valid() && AllGreedy() && Reserved()
      modifies this`free, this`active, this`prefilling, this`preempted, this`preemptions, this`log, dec
      ensures Valid() && WentOn(r)
      ensures kept <= old(active) && (old(active) != [] ==> kept != []) && (old(InWindow(active, dec.maxSeq)) ==> kept == old(active))
      ensures r.None? <==> Overflows(kept, lookupLen, draftK) || Blocked()
      ensures Overflows(kept, lookupLen, draftK) ==> log == old(log)
      ensures r.Some? ==> decoded <= r.value && |decoded| >= |kept| && PerSequence(kept, DraftsOf(kept, lookupLen, draftK), decoded)
      ensures |old(active)| * (draftK + 1) <= dec.mMax && WithinWindow(0) ==> r.Some?
      ensures old(Busy()) && 0 < dec.mMax && r == Some([]) ==>
                Unprefilled(prefilling) < Unprefilled(old(prefilling)) || OnlyOutgrown(S(), dec.maxSeq)
    {
      ghost var s0 := S();
      SmallBatch(lookupLen, draftK);
      r, kept := TryDrafts(lookupLen, draftK);
      decoded := if r.Some? then r.value else [];
      if r.Some? {
        r := ThenAdvance(s0, old(log), r.value);
        NobodyOutgrows();
      }
    }

    /** The batch is larger than the decoder's row limit, or reaches beyond the context window. */
    ghost predicate Overflows(kept: seq<CbSeq>, lookupLen: nat, draftK: nat) {
      var drafts := DraftsOf(kept, lookupLen, draftK);
      kept != [] && (RowCount(drafts, |kept|) > dec.mMax || !DraftsInWindow(kept, drafts, dec.maxSeq))
    }

    /**
     Every request's prompt and budget together fit the context window and `extra` positions. Plain
     decoding never feeds a request's last token, so one extra position does no harm; drafts allow none.
     */
    ghost predicate WithinWindow(extra: nat)
      reads this, dec
    {
      forall id :: id in reqs ==> |reqs[id].prompt| + reqs[id].maxTokens <= dec.maxSeq + extra
    }

    lemma NobodyOutgrows()
      requires Valid()
      ensures WithinWindow(0) || WithinWindow(1) ==> !Outgrown(S(), dec.maxSeq) && InWindow(active, dec.maxSeq) && !Blocked()
    {
      if (WithinWindow(0) || WithinWindow(1)) && Outgrown(S(), dec.maxSeq) {
        var id := OutgrownRequest(E(), S(), K(), log);
      }
    }

    /** Few enough sequences with room for their drafts never overflow. */
    lemma SmallBatch(lookupLen: nat, draftK: nat)
      requires Valid()
      ensures |active| * (draftK + 1) <= dec.mMax && WithinWindow(0) ==>
                InWindow(active, dec.maxSeq) && !Overflows(active, lookupLen, draftK)
    {
      RowCountBound(DraftsOf(active, lookupLen, draftK), draftK, |active|);
      if WithinWindow(0) {
        NobodyOutgrows();
        DraftsFit(E(), S(), K(), log, lookupLen, draftK);
      }
    }

    /** The decode part of the speculative step. */
    method TryDrafts(lookupLen: nat, draftK: nat) returns (r: Option<seq<Emit>>, ghost kept: seq<CbSeq>)
      requires Valid() && AllGreedy() && Reserved()
      modifies this`free, this`active, this`preempted, this`preemptions, this`log, dec
      ensures Valid() && WentOn(r) && prefilling == old(prefilling)
      ensures kept <= old(active) && (old(active) != [] ==> kept != []) && (old(InWindow(active, dec.maxSeq)) ==> kept == old(active))
      ensures r.None? <==> Overflows(kept, lookupLen, draftK)
      ensures r.None? ==> log == old(log)
      ensures r.Some? ==> |r.value| >= |kept| && PerSequence(kept, DraftsOf(kept, lookupLen, draftK), r.value)
      ensures old(active) == [] ==> S() == old(S()) && log == old(log)
    {
      FollowsSame(S(), log);
      if active == [] {
        return Some([]), [];
      }
      if InWindow(active, dec.maxSeq) {
        AlwaysComfortable();
      }
      RoomyRoom(E(), S(), K(), log, dec.nBlocks);
      ghost var s0 := S();
      MakeRoom();
      kept := active;
      ghost var s1, log1 := S(), log;
      r := VerifyDrafts(lookupLen, draftK);
      FollowsTrans(s0, old(log), s1, log1, S(), log);
    }

    /** Drafts for every decoding sequence, verified in one forward. */
    method VerifyDrafts(lookupLen: nat, draftK: nat) returns (r: Option<seq<Emit>>)
      requires Valid() && AllGreedy() && Reserved() && active != []
      modifies this`free, this`active, this`log, dec
      ensures Valid() && WentOn(r) && prefilling == old(prefilling)
      ensures r.None? <==> Overflows(old(active), lookupLen, draftK)
      ensures r.None? ==> log == old(log)
      ensures r.Some? ==> |r.value| >= |old(active)| && PerSequence(old(active), DraftsOf(old(active), lookupLen, draftK), r.value)
    {
      FollowsSame(S(), log);
      ActiveFormed(E(), S(), K(), log);
      ghost var drafts := DraftsOf(active, lookupLen, draftK);
      var rows, layout := LayOut(active, drafts, lookupLen, draftK);
      RowsCounted(active, drafts, |active|);
      RowsInWindow(active, drafts, dec.maxSeq);
      if |rows| > dec.mMax || exists row :: row in rows && row.pos >= dec.maxSeq {
        return None;
      }
      PlanDrafts(drafts);
      var out := DecodeDrafts(rows, drafts, layout);
      return Some(out);
    }
  }

  /** The request has been marked done. */
  ghost predicate Done(log: seq<Emit>, id: nat) {
    exists i :: 0 <= i < |log| && log[i].id == id && log[i].done
  }

  /**
   From `s` on, a request left the scheduler only by being marked done, none appeared, and tokens
   were emitted for live requests only. Folded.
   */
  ghost predicate Follows(s: Sched, log: seq<Emit>, s': Sched, log': seq<Emit>) {
    forall n :: Unfold(n) ==> FollowsBody(s, log, s', log')
  }

  ghost predicate FollowsBody(s: Sched, log: seq<Emit>, s': Sched, log': seq<Emit>) {
    && log <= log'
    && (forall id :: Live(s', id) ==> Live(s, id))
    && (forall id :: Live(s, id) ==> Live(s', id) || Done(log', id))
    && (forall i :: |log| <= i < |log'| ==> Live(s, log'[i].id))
  }

  lemma FollowsSame(s: Sched, log: seq<Emit>)
    ensures Follows(s, log, s, log)
  {
  }

  lemma FollowsIff(s: Sched, s': Sched, log: seq<Emit>)
    requires forall id :: Live(s', id) <==> Live(s, id)
    ensures Follows(s, log, s', log)
  {
  }

  lemma FollowsTrans(a: Sched, la: seq<Emit>, b: Sched, lb: seq<Emit>, c: Sched, lc: seq<Emit>)
    requires Follows(a, la, b, lb) && Follows(b, lb, c, lc)
    ensures Follows(a, la, c, lc)
  {
    assert Unfold(0);
    forall id | Live(a, id) && !Live(b, id) ensures Done(lc, id) {
      DoneGrows(lb, lc, id);
    }
    forall i | |la| <= i < |lc| ensures Live(a, lc[i].id) {
      if i < |lb| {
        assert lc[i] == lb[i];
      }
    }
  }

  lemma DoneGrows(log: seq<Emit>, log': seq<Emit>, id: nat)
    requires Done(log, id) && log <= log'
    ensures Done(log', id)
  {
    var i :| 0 <= i < |log| && log[i].id == id && log[i].done;
    assert log'[i] == log[i];
  }

  lemma DoneLast(log: seq<Emit>, em: Emit)
    ensures em.done ==> Done(log + [em], em.id)
  {
    assert (log + [em])[|log|] == em;
  }

  lemma PushFollows(s: Sched, log: seq<Emit>, i: nat, tok: Token, em: Emit)
    requires i < |s.active| && em.id == s.active[i].id
    ensures Follows(s, log, Push(s, i, tok), log + [em])
  {
    var s' := Push(s, i, tok);
    assert forall j :: 0 <= j < |s.active| ==> s'.active[j].id == s.active[j].id;
  }

  /** Decoding sequences have been evicted from the back, at least one is left, and nothing else moved. */
  ghost predicate Shed(s: Sched, s': Sched, log: seq<Emit>) {
    s'.active != [] && s'.active <= s.active && s'.prefilling == s.prefilling && Follows(s, log, s', log)
  }

  lemma ShedNext(a: Sched, b: Sched, c: Sched, log: seq<Emit>)
    requires Shed(a, b, log) && Shed(b, c, log)
    ensures Shed(a, c, log)
  {
    FollowsTrans(a, log, b, log, c, log);
  }

  /** The first n decoding sequences go on or have been marked done. */
  ghost predicate AllSettled(s: Sched, log: seq<Emit>, n: nat)
    requires n <= |s.active|
  {
    forall j :: 0 <= j < n ==> Running(s.active[j].AsJob()) || Done(log, s.active[j].id)
  }

  lemma SettledGrows(s: Sched, log: seq<Emit>, i: nat, tok: Token, em: Emit)
    requires i < |s.active| && AllSettled(s, log, i)
    requires em.id == s.active[i].id && (em.done <==> !Running(Push(s, i, tok).active[i].AsJob()))
    ensures AllSettled(Push(s, i, tok), log + [em], i + 1)
  {
    var s' := Push(s, i, tok);
    forall j | 0 <= j < i + 1 ensures Running(s'.active[j].AsJob()) || Done(log + [em], s'.active[j].id) {
      if j == i {
        assert (log + [em])[|log|] == em;
      } else if Done(log, s.active[j].id) {
        DoneGrows(log, log + [em], s.active[j].id);
      }
    }
  }

  /**
   Part-way through committing sequence i's verified tokens: from `s0` and `log0` the tokens `out`
   are in. Folded.
   */
  ghost predicate MidDraft(s0: Sched, log0: seq<Emit>, s: Sched, log: seq<Emit>, i: nat, so: seq<Token>, out: seq<Emit>, done: bool) {
    forall n :: Unfold(n) ==>
      && i < |s.active| == |s0.active| && |out| <= |so|
      && log == log0 + out && Follows(s0, log0, s, log) && s == TakenIn(s0, i, so, |out|)
      && (if done then Done(log, s.active[i].id) else Running(s.active[i].AsJob()))
  }

  lemma MidStart(s: Sched, log: seq<Emit>, i: nat, so: seq<Token>)
    requires i < |s.active| && Running(s.active[i].AsJob())
    ensures MidDraft(s, log, s, log, i, so, [], false)
  {
    TakeNone(s, i, so);
    FollowsSame(s, log);
  }

  lemma MidMayCommit(e: Env, s0: Sched, log0: seq<Emit>, s: Sched, k: Kv, log: seq<Emit>, i: nat, draft: seq<Token>,
                     so: seq<Token>, acc: nat, out: seq<Emit>)
    requires MidDraft(s0, log0, s, log, i, so, out, false) && i < |s0.active| && DraftHeld(e, k, s0.active[i], draft, so)
    requires |out| <= acc <= |draft| && so[..acc] == draft[..acc]
    ensures |out| < |so| && i < |s.active| && s.active[i].slot < e.mMax
    ensures MayCommit(e, s.active[i], k.ctx[s.active[i].slot], so[|out|])
  {
    assert Unfold(0);
    assert so[..|out|] == so[..acc][..|out|] == draft[..|out|];
    DraftMayCommit(e, k, s0.active[i], draft, so, |out|);
  }

  lemma MidNext(s0: Sched, log0: seq<Emit>, s: Sched, log: seq<Emit>, s': Sched, log': seq<Emit>, i: nat, so: seq<Token>,
                out: seq<Emit>, em: Emit)
    requires MidDraft(s0, log0, s, log, i, so, out, false) && i < |s.active| && |out| < |so|
    requires s' == Push(s, i, so[|out|]) && log' == log + [em] && Follows(s, log, s', log') && em.id == s.active[i].id
    requires em.done <==> !Running(s'.active[i].AsJob())
    ensures MidDraft(s0, log0, s', log', i, so, out + [em], em.done)
  {
    assert Unfold(0);
    TakeNext(s0, i, so, |out|);
    FollowsTrans(s0, log0, s, log, s', log');
    Assoc(log0, out, [em]);
    assert log'[|log| + 0] == em;
  }

  lemma MidEnd(s0: Sched, log0: seq<Emit>, s: Sched, log: seq<Emit>, i: nat, so: seq<Token>, out: seq<Emit>, done: bool)
    requires MidDraft(s0, log0, s, log, i, so, out, done)
    ensures i < |s.active| == |s0.active| && |out| <= |so| && log == log0 + out && Follows(s0, log0, s, log)
    ensures s == TakenIn(s0, i, so, |out|) && (Running(s.active[i].AsJob()) || Done(log, s.active[i].id))
  {
    assert Unfold(0);
  }

  /** Committing sequence i's tokens leaves the later segments as they were. */
  lemma SegmentKept(e: Env, s: Sched, log: seq<Emit>, s': Sched, log': seq<Emit>, k: Kv, layout: seq<Segment>, outs: seq<Token>,
                    i: nat, so: seq<Token>, n: nat)
    requires i < |layout| && AllVerified(e, s, k, layout, outs, i) && AllSettled(s, log, i) && log <= log'
    requires n <= |so| && s' == TakenIn(s, i, so, n)
    requires Running(s'.active[i].AsJob()) || Done(log', s'.active[i].id)
    ensures AllVerified(e, s', k, layout, outs, i + 1) && AllSettled(s', log', i + 1)
  {
    forall j | 0 <= j < i && Done(log, s.active[j].id) ensures Done(log', s.active[j].id) {
      DoneGrows(log, log', s.active[j].id);
    }
  }

  /** Of `out`, each of the sequences received between one token and its draft's length plus one. */
  ghost predicate PerSequence(active: seq<CbSeq>, drafts: seq<seq<Token>>, out: seq<Emit>) {
    |drafts| == |active| && forall i :: 0 <= i < |active| ==> 1 <= |TokensOf(out, active[i].id)| <= 1 + |drafts[i]|
  }

  /** The same with the drafts of a layout. */
  ghost predicate Shares(active: seq<CbSeq>, layout: seq<Segment>, out: seq<Emit>) {
    |layout| == |active| && forall i :: 0 <= i < |active| ==> 1 <= |TokensOf(out, active[i].id)| <= 1 + |layout[i].draft|
  }

  lemma SharesAre(active: seq<CbSeq>, drafts: seq<seq<Token>>, layout: seq<Segment>)
    requires Formed(active) && |drafts| == |active| && LaidOut(active, drafts, layout, |active|)
    ensures forall out :: Shares(active, layout, out) ==> PerSequence(active, drafts, out)
  {
  }

  lemma {:induction false} TokensConcat(log: seq<Emit>, out: seq<Emit>, id: nat, n: nat)
    requires n <= |out|
    ensures TokensTo(log + out, id, |log| + n) == TokensOf(log, id) + TokensTo(out, id, n)
  {
    if n == 0 {
      TokensPrefix(log, out, id, |log|);
    } else {
      TokensConcat(log, out, id, n - 1);
      assert (log + out)[|log| + n - 1] == out[n - 1];
    }
  }

  /** What the sequences grew by is what was emitted for them. */
  lemma SharesOut(e: Env, s0: Sched, k0: Kv, log0: seq<Emit>, s: Sched, k: Kv, layout: seq<Segment>, out: seq<Emit>)
    requires Sane(e, s0, k0, log0) && Sane(e, s, k, log0 + out)
    requires |s0.active| == |s.active| == |layout| && Grew(s0.active, s.active, layout, |layout|)
    ensures Shares(s0.active, layout, out)
  {
    BatchLayout(e, s0, k0, log0);
    BatchLayout(e, s, k, log0 + out);
    forall i | 0 <= i < |layout| ensures 1 <= |TokensOf(out, s0.active[i].id)| <= 1 + |layout[i].draft| {
      assert Tracked(e, log0, s0.active[i].AsJob()) && Tracked(e, log0 + out, s.active[i].AsJob());
      TokensConcat(log0, out, s0.active[i].id, |out|);
    }
  }

  lemma StillRunning(x: CbSeq)
    requires x.promptLen < |x.tokens|
    ensures Running(x.AsJob()) <==> !(x.tokens[|x.tokens| - 1] == x.eos || |x.tokens| - x.promptLen >= x.maxTokens)
  {
  }

  lemma DropFollows(s: Sched, i: nat, log: seq<Emit>)
    requires i < |s.active| && Done(log, s.active[i].id)
    ensures Follows(s, log, DropActive(s, i), log)
  {
    DropActiveLive(s, i);
  }

  lemma FrontReady(e: Env, s: Sched, k: Kv, log: seq<Emit>)
    requires Sane(e, s, k, log) && s.prefilling != []
    ensures PrefillOk(e, log, k, s.prefilling[0])
    ensures |s.prefilling[0].prompt| <= e.maxSeq
  {
    PrefillHolds(e, s, k, log, 0);
  }

  /** The front prompt moves on; nobody comes or goes. */
  lemma AdvanceFollows(s: Sched, next: nat, log: seq<Emit>)
    requires s.prefilling != []
    ensures Follows(s, log, s.(prefilling := s.prefilling[0 := s.prefilling[0].(prefillPos := next)]), log)
  {
    var s' := s.(prefilling := s.prefilling[0 := s.prefilling[0].(prefillPos := next)]);
    assert forall i :: 0 <= i < |s.prefilling| ==> s'.prefilling[i].id == s.prefilling[i].id;
  }

  /** The front prompt is resident and leaves the queue with its slot in hand. */
  lemma PopFrontSane(e: Env, s: Sched, k: Kv, log: seq<Emit>, held: nat)
    requires Sane(e, s, k, log) && s.prefilling != []
    ensures var x := s.prefilling[0];
            var s' := s.(prefilling := s.prefilling[1..]);
            && x.slot < e.mMax
            && Sane(e, s', k.Set(x.slot, x.prompt, k.shared[x.slot], held), log)
            && SlotFree(s', x.slot) && !Live(s', x.id)
            && Tracked(e, log, x.AsJob())
  {
    PopPrefillSane(e, s, k, log);
    var x := s.prefilling[0];
    SetKvSane(e, s.(prefilling := s.prefilling[1..]), k, log, x.slot, x.prompt, k.shared[x.slot], held);
  }

  /** A request leaves the queue and its next token is emitted: it decodes on unless done. */
  lemma FinishFollows(s: Sched, log0: seq<Emit>, s': Sched, id: nat, em: Emit)
    requires s.prefilling != [] && s.prefilling[0].id == id == em.id
    requires forall x :: Live(s', x) <==> Live(s.(prefilling := s.prefilling[1..]), x) || (x == id && !em.done)
    ensures Follows(s, log0, s', log0 + [em])
  {
    DoneLast(log0, em);
    var t := s.(prefilling := s.prefilling[1..]);
    forall x ensures Live(s, x) <==> Live(t, x) || x == id {
      if j :| 0 <= j < |s.prefilling| && s.prefilling[j].id == x {
        if j > 0 {
          assert t.prefilling[j - 1].id == x;
        }
      }
      if j :| 0 <= j < |t.prefilling| && t.prefilling[j].id == x {
        assert s.prefilling[j + 1].id == x;
      }
    }
  }

  /** A prompt that has produced nothing is a running job, and its own decode starts like its prefill. */
  lemma PromptJob(e: Env, log: seq<Emit>, x: PrefillingSeq)
    requires Tracked(e, log, x.AsJob()) && x.promptLen == |x.prompt|
    ensures Running(x.AsJob()) && x.AsJob().Gen() == []
    ensures NextToken(e.m, x.AsJob().Req(), []) == PickTemp(e.m, KvOf(e.m, x.prompt), x.params.temp, StepSeed(x.baseSeed, 0))
  {
    assert x.prompt[..x.promptLen] == x.prompt;
    assert x.prompt[x.promptLen..] == [];
    assert x.prompt + [] == x.prompt;
  }

  lemma LogSane(e: Env, s: Sched, k: Kv, log: seq<Emit>)
    requires Sane(e, s, k, log)
    ensures LogOk(e.m, e.mode, e.reqs, log)
  {
    assert Unfold(0);
  }

  lemma LogBounded(e: Env, s: Sched, k: Kv, log: seq<Emit>)
    requires Sane(e, s, k, log)
    ensures |log| <= SumMap(Budgets(e.reqs))
  {
    LogSane(e, s, k, log);
    WithinBudget(e.m, e.mode, e.reqs, log);
  }

  lemma AllDone(s: Sched, log0: seq<Emit>, s': Sched, log: seq<Emit>)
    requires Follows(s, log0, s', log) && s'.active == [] && s'.prefilling == [] && s'.preempted == []
    ensures forall id :: Live(s, id) ==> Done(log, id)
  {
    assert Unfold(0);
  }

  /** Some sequence still to be fed has outgrown the context window. */
  ghost predicate Outgrown(s: Sched, maxSeq: nat) {
    || (exists i :: 0 <= i < |s.active| && |s.active[i].tokens| > maxSeq)
    || (exists i :: 0 <= i < |s.preempted| && |s.preempted[i].tokens| > maxSeq)
  }

  /** Nothing decodes or prefills, and the next sequence to resume has outgrown the window. */
  ghost predicate OnlyOutgrown(s: Sched, maxSeq: nat) {
    s.active == [] && s.prefilling == [] && s.preempted != [] && |s.preempted[0].tokens| > maxSeq
  }

  /** The request of a sequence that has outgrown the window: its budget does, and its own generation if it is exact. */
  lemma OutgrownRequest(e: Env, s: Sched, k: Kv, log: seq<Emit>) returns (id: nat)
    requires Sane(e, s, k, log) && AllRunning(s, 0) && Outgrown(s, e.maxSeq)
    ensures Live(s, id) && id in e.reqs && |e.reqs[id].prompt| + e.reqs[id].maxTokens > e.maxSeq + 1
    ensures Exact(e.reqs[id], e.mode) ==> |e.reqs[id].prompt| + |Solo(e.m, e.reqs[id])| > e.maxSeq + 1
  {
    assert Unfold(0);
    var j: Job;
    if i :| 0 <= i < |s.active| && |s.active[i].tokens| > e.maxSeq {
      assert ActiveOk(e, log, k, s.active[i]);
      j := s.active[i].AsJob();
      id := s.active[i].id;
    } else {
      var i :| 0 <= i < |s.preempted| && |s.preempted[i].tokens| > e.maxSeq;
      assert PreemptOk(e, log, s.preempted[i]);
      j := s.preempted[i].AsJob();
      id := s.preempted[i].id;
    }
    RunningGoesOn(e, log, j);
  }

  /** A request still running has more to come. */
  lemma RunningGoesOn(e: Env, log: seq<Emit>, j: Job)
    requires Tracked(e, log, j) && Running(j) && LogOk(e.m, e.mode, e.reqs, log) && |j.tokens| > e.maxSeq
    ensures |e.reqs[j.id].prompt| + e.reqs[j.id].maxTokens > e.maxSeq + 1
    ensures Exact(e.reqs[j.id], e.mode) ==> |e.reqs[j.id].prompt| + |Solo(e.m, e.reqs[j.id])| > e.maxSeq + 1
  {
    var r := e.reqs[j.id];
    if Exact(r, e.mode) {
      StreamMeaning(e.m, e.mode, e.reqs, log, j.id);
      SoloStops(e.m, r, []);
      assert TokensOf(log, j.id) != Solo(e.m, r);
    }
  }

  /** Where draining stops short, some request that was live cannot finish inside the window. */
  lemma DrainFails(e: Env, s0: Sched, log0: seq<Emit>, s: Sched, k: Kv, log: seq<Emit>)
    requires Sane(e, s, k, log) && AllRunning(s, 0) && Outgrown(s, e.maxSeq) && Follows(s0, log0, s, log)
    ensures exists id :: Live(s0, id) && id in e.reqs && |e.reqs[id].prompt| + e.reqs[id].maxTokens > e.maxSeq + 1
                         && (Exact(e.reqs[id], e.mode) ==> |e.reqs[id].prompt| + |Solo(e.m, e.reqs[id])| > e.maxSeq + 1)
  {
    var id := OutgrownRequest(e, s, k, log);
    assert Unfold(0) && FollowsBody(s0, log0, s, log);
  }

  /** Where draining ends, every exact request's generation fitted the window. */
  lemma DrainEnds(e: Env, s0: Sched, s: Sched, k: Kv, log: seq<Emit>)
    requires Sane(e, s, k, log) && forall id :: Live(s0, id) ==> Done(log, id)
    ensures forall id :: Live(s0, id) && id in e.reqs && Exact(e.reqs[id], e.mode) ==>
              |e.reqs[id].prompt| + |Solo(e.m, e.reqs[id])| <= e.maxSeq + 1
  {
    assert Unfold(0);
    forall id | Live(s0, id) && id in e.reqs && Exact(e.reqs[id], e.mode)
      ensures |e.reqs[id].prompt| + |Solo(e.m, e.reqs[id])| <= e.maxSeq + 1 {
      StreamMeaning(e.m, e.mode, e.reqs, log, id);
      assert |e.reqs[id].prompt| + |TokensOf(log, id)| <= e.maxSeq + 1;
    }
  }

  /** What a preempted sequence draws next: by its own parameters from its host copy, by temperature after prefilling again. */
  function Resumed(m: Model, p: PreemptedSeq): Token
    requires p.promptLen <= |p.tokens|
  {
    var kv, seed := KvOf(m, p.tokens), StepSeed(p.baseSeed, |p.tokens| - p.promptLen);
    if p.kv.Some? then PickOwn(m, kv, p.params, seed) else PickTemp(m, kv, p.params.temp, seed)
  }

  /** The first sequence in the queue has been resumed. */
  ghost predicate FirstResumed(m: Model, preempted: seq<PreemptedSeq>, em: Emit) {
    && preempted != [] && preempted[0].promptLen <= |preempted[0].tokens|
    && em.id == preempted[0].id && em.token == Resumed(m, preempted[0])
  }

  /** A decoding sequence evicted: its KV goes to the host in swap mode only. */
  ghost predicate IsVictim(p: PreemptedSeq, x: CbSeq, swap: bool) {
    && p == PreemptedSeq(x.id, x.tokens, x.promptLen, x.maxTokens, x.eos, x.params, x.baseSeed, p.kv)
    && (p.kv.Some? <==> swap)
  }

  /** For an exact request that is its own next token. */
  lemma PreemptFits(e: Env, s: Sched, k: Kv, log: seq<Emit>, p: PreemptedSeq)
    requires Sane(e, s, k, log) && PreemptOk(e, log, p)
    ensures 0 < p.promptLen <= |p.tokens|
    ensures Exact(p.AsJob().Req(), e.mode) ==> Resumed(e.m, p) == NextToken(e.m, p.AsJob().Req(), p.AsJob().Gen())
  {
    assert Unfold(0);
    assert p.tokens[..p.promptLen] + p.tokens[p.promptLen..] == p.tokens;
  }

  /** The last token of a restored history can be decoded, and then the whole history is resident. */
  lemma OneRow(ctx: seq<seq<Token>>, shared: seq<nat>, held: seq<nat>, maxSeq: nat, tokens: seq<Token>, slot: nat)
    requires |ctx| == |shared| == |held| && slot < |ctx| && 0 < |tokens| <= maxSeq
    requires ctx[slot] == tokens[..|tokens| - 1] && shared[slot] == 0 && held[slot] == Blocks(|tokens| - 1)
    ensures var n := |tokens| - 1;
            var rows := [Row(tokens[n], n, slot)];
            && Feedable(ctx, shared, maxSeq, rows)
            && FeedRows(ctx, rows, 1) == ctx[slot := tokens]
            && Grow(held, rows, 1) == held[slot := Blocks(|tokens|)]
            && Sum(Grow(held, rows, 1)) + Blocks(n) == Sum(held) + Blocks(|tokens|)
  {
    var n := |tokens| - 1;
    var rows := [Row(tokens[n], n, slot)];
    assert FeedRows(ctx, rows, 0) == ctx && Grow(held, rows, 0) == held;
    assert RowFits(ctx, shared, maxSeq, rows, 0);
    assert ctx[slot][..n] + [tokens[n]] == tokens;
    SumUpdate(held, slot, Blocks(|tokens|));
  }

  /** A slot written twice holds what was written last. */
  lemma SlotRewritten(k: Kv, k1: Kv, slot: nat, c: seq<Token>, h: nat, c': seq<Token>, h': nat)
    requires slot < |k.ctx| && slot < |k.shared| && slot < |k.held| && k1 == k.Set(slot, c, 0, h)
    ensures Kv(k1.ctx[slot := c'], k1.shared, k1.held[slot := h']) == k.Set(slot, c', 0, h')
  {
  }

  lemma ResumeFollows(s: Sched, log0: seq<Emit>, s': Sched, em: Emit)
    requires s.preempted != [] && s.preempted[0].id == em.id
    requires forall x :: Live(s', x) <==> Live(DropPreempted(s, 0), x) || (x == em.id && !em.done)
    ensures Follows(s, log0, s', log0 + [em])
  {
    DropPreemptedLive(s, 0);
    DoneLast(log0, em);
  }

  /** Emptying a decoding sequence's slot does not touch what mid-prefill sequences hold. */
  lemma RoomKept(s: Sched, k: Kv, s': Sched, k': Kv, maxSeq: nat, nBlocks: nat, slot: nat)
    requires RoomForOne(s, k, maxSeq, nBlocks) && s'.prefilling == s.prefilling
    requires slot < |k.ctx| && slot < |k.shared| && slot < |k.held| && k' == k.Set(slot, [], 0, 0)
    requires forall i :: 0 <= i < |s.prefilling| ==> s.prefilling[i].slot != slot
    ensures RoomForOne(s', k', maxSeq, nBlocks)
  {
    assert PrefillSlots(s') == PrefillSlots(s);
    SumAtSame(k.held, k'.held, PrefillSlots(s), |s.prefilling|);
  }

  lemma DropActiveLive(s: Sched, i: nat)
    requires i < |s.active|
    ensures Live(s, s.active[i].id)
    ensures forall x :: x != s.active[i].id ==> (Live(DropActive(s, i), x) <==> Live(s, x))
  {
    var s' := DropActive(s, i);
    forall x | x != s.active[i].id ensures Live(s', x) <==> Live(s, x) {
      if j :| 0 <= j < |s.active| && s.active[j].id == x {
        assert s'.active[if j < i then j else j - 1].id == x;
      }
    }
  }

  lemma DropPrefillLive(s: Sched, i: nat)
    requires i < |s.prefilling|
    ensures Live(s, s.prefilling[i].id)
    ensures forall x :: x != s.prefilling[i].id ==> (Live(DropPrefill(s, i), x) <==> Live(s, x))
  {
    var s' := DropPrefill(s, i);
    forall x | x != s.prefilling[i].id ensures Live(s', x) <==> Live(s, x) {
      if j :| 0 <= j < |s.prefilling| && s.prefilling[j].id == x {
        assert s'.prefilling[if j < i then j else j - 1].id == x;
      }
    }
  }

  lemma DropPreemptedLive(s: Sched, i: nat)
    requires i < |s.preempted|
    ensures Live(s, s.preempted[i].id)
    ensures forall x :: x != s.preempted[i].id ==> (Live(DropPreempted(s, i), x) <==> Live(s, x))
  {
    var s' := DropPreempted(s, i);
    forall x | x != s.preempted[i].id ensures Live(s', x) <==> Live(s, x) {
      if j :| 0 <= j < |s.preempted| && s.preempted[j].id == x {
        assert s'.preempted[if j < i then j else j - 1].id == x;
      }
    }
  }

  lemma DropActiveRunning(s: Sched, i: nat)
    requires i < |s.active| && AllRunning(s, 0)
    ensures AllRunning(DropActive(s, i), 0)
  {
  }

  /** A newly queued request tracks its own prompt. */
  lemma EnqueuedOk(e: Env, k: Kv, log: seq<Emit>, x: PrefillingSeq)
    requires k.Shape(e.mMax) && x.slot < e.mMax
    requires x.id in e.reqs && e.reqs[x.id] == Request(x.prompt, x.maxTokens, x.eos, x.params, x.baseSeed)
    requires TokensOf(log, x.id) == []
    requires 0 < |x.prompt| == x.promptLen <= e.maxSeq
    requires x.prefillPos == BLOCK * x.cachedBlocks < |x.prompt|
    ensures PrefillOk(e, log, k.Set(x.slot, x.prompt[..x.prefillPos], x.cachedBlocks, x.cachedBlocks), x)
  {
    assert x.prompt[..x.promptLen] == x.prompt;
    assert x.prompt[x.promptLen..] == [];
  }

  lemma PushActiveLive(s: Sched, x: CbSeq)
    ensures forall id :: Live(s.(active := s.active + [x]), id) <==> Live(s, id) || id == x.id
  {
    var s' := s.(active := s.active + [x]);
    forall id ensures Live(s', id) <==> Live(s, id) || id == x.id {
      if j :| 0 <= j < |s.active| && s.active[j].id == id {
        assert s'.active[j].id == id;
      }
      assert s'.active[|s.active|].id == x.id;
    }
  }

  lemma PushPreemptedLive(s: Sched, x: PreemptedSeq)
    ensures forall id :: Live(s.(preempted := s.preempted + [x]), id) <==> Live(s, id) || id == x.id
  {
    var s' := s.(preempted := s.preempted + [x]);
    forall id ensures Live(s', id) <==> Live(s, id) || id == x.id {
      if j :| 0 <= j < |s.preempted| && s.preempted[j].id == id {
        assert s'.preempted[j].id == id;
      }
      assert s'.preempted[|s.preempted|].id == x.id;
    }
  }

  /** A sequence that goes on decoding after its next token. */
  lemma SettledOk(e: Env, k: Kv, log: seq<Emit>, x: CbSeq, g: Token)
    requires k.Shape(e.mMax) && x.slot < e.mMax
    requires Tracked(e, log, x.AsJob()) && |x.tokens| <= e.maxSeq
    requires x.tokens <= k.ctx[x.slot] && BLOCK * k.shared[x.slot] <= |x.tokens|
    ensures ActiveOk(e, log + [NextEmit(e, log, x.id, g)], k, x.(tokens := x.tokens + [g]))
  {
    TrackedNext(e, log, x.AsJob(), g);
    assert (x.tokens + [g])[..|x.tokens|] == x.tokens;
    assert x.(tokens := x.tokens + [g]).AsJob() == x.AsJob().(tokens := x.tokens + [g]);
  }

  lemma SettledRunning(e: Env, log: seq<Emit>, x: CbSeq, g: Token)
    requires Tracked(e, log, x.AsJob())
    ensures Emit(x.id, g, g == x.eos || |x.tokens| + 1 - x.promptLen >= x.maxTokens) == NextEmit(e, log, x.id, g)
    ensures !NextEmit(e, log, x.id, g).done <==> Running(x.(tokens := x.tokens + [g]).AsJob())
  {
    var y := x.(tokens := x.tokens + [g]);
    assert y.tokens[..x.promptLen] == x.tokens[..x.promptLen];
    assert y.tokens[x.promptLen..] == x.tokens[x.promptLen..] + [g];
  }

  /** A request about to draw its first token. */
  lemma FreshJob(e: Env, log: seq<Emit>, x: CbSeq)
    requires x.id in e.reqs && e.reqs[x.id] == Request(x.tokens, x.maxTokens, x.eos, x.params, x.baseSeed)
    requires TokensOf(log, x.id) == []
    requires 0 < |x.tokens| == x.promptLen <= e.maxSeq
    ensures Tracked(e, log, x.AsJob()) && Running(x.AsJob())
    ensures x.AsJob().Gen() == [] && x.AsJob().Req().prompt + [] == x.tokens
  {
    assert x.tokens[..x.promptLen] == x.tokens;
    assert x.tokens[x.promptLen..] == [];
  }

  /** The last decoding sequence gone, its slot returned. */
  ghost function Evicted(s: Sched): Sched
    requires s.active != []
  {
    s.(active := s.active[..|s.active| - 1], free := s.free + [s.active[|s.active| - 1].slot])
  }

  /** Only request `id` has left. */
  ghost predicate Without1(s: Sched, s': Sched, id: nat) {
    !Live(s', id) && forall x :: Live(s', x) || x == id <==> Live(s, x)
  }

  lemma EvictSane(e: Env, s: Sched, k: Kv, log: seq<Emit>)
    requires Sane(e, s, k, log) && s.active != [] && AllRunning(s, 0)
    ensures var x := s.active[|s.active| - 1];
            && x.slot < e.mMax && x.tokens != [] && x.tokens[..|x.tokens| - 1] <= k.ctx[x.slot]
            && Sane(e, Evicted(s), k.Set(x.slot, [], 0, 0), log)
            && AllRunning(Evicted(s), 0)
            && Without1(s, Evicted(s), x.id)
  {
    var i := |s.active| - 1;
    assert Without(s.active, i) == s.active[..i];
    assert DropActive(s, i) == Evicted(s);
    DropActiveSane(e, s, k, log, i);
    DropActiveLive(s, i);
    HistoryResident(e, s, k, log, i);
  }

  /** A decoding sequence's history but for its last token is resident. */
  lemma HistoryResident(e: Env, s: Sched, k: Kv, log: seq<Emit>, i: nat)
    requires Sane(e, s, k, log) && i < |s.active|
    ensures var x := s.active[i];
            x.slot < e.mMax && x.tokens != [] && x.tokens[..|x.tokens| - 1] <= k.ctx[x.slot]
  {
    assert Unfold(0);
    assert ActiveOk(e, log, k, s.active[i]);
  }

  /** An evicted decoding sequence keeps its history; its KV up to the last token may go to the host. */
  lemma PreemptedOk(e: Env, s: Sched, k: Kv, log: seq<Emit>, i: nat, kv: Option<HostKv>)
    requires Sane(e, s, k, log) && i < |s.active| && Running(s.active[i].AsJob())
    requires e.mode.swap ==> kv.Some?
    requires var x := s.active[i];
             && x.slot < e.mMax && 0 < |x.tokens| <= |k.ctx[x.slot]| + 1
             && (kv.Some? ==> HostHolds(e.m, kv.value, k.ctx[x.slot][..|x.tokens| - 1]))
    ensures var x := s.active[i];
            PreemptOk(e, log, PreemptedSeq(x.id, x.tokens, x.promptLen, x.maxTokens, x.eos, x.params, x.baseSeed, kv))
  {
    assert Unfold(0);
    var x := s.active[i];
    assert ActiveOk(e, log, k, x);
    assert k.ctx[x.slot][..|x.tokens| - 1] == x.tokens[..|x.tokens| - 1];
    assert PreemptedSeq(x.id, x.tokens, x.promptLen, x.maxTokens, x.eos, x.params, x.baseSeed, kv).AsJob() == x.AsJob();
  }

  /** An evicted prefilling sequence has produced nothing and starts over. */
  lemma PreemptedPrefillOk(e: Env, s: Sched, k: Kv, log: seq<Emit>, i: nat)
    requires Sane(e, s, k, log) && i < |s.prefilling|
    ensures var x := s.prefilling[i];
            PreemptOk(e, log, PreemptedSeq(x.id, x.prompt, x.promptLen, x.maxTokens, x.eos, x.params, x.baseSeed, None))
  {
    assert Unfold(0);
    assert PrefillOk(e, log, k, s.prefilling[i]);
    var x := s.prefilling[i];
    assert x.prompt[x.promptLen..] == [];
  }

  /** Committing a token: the invariant, the emission and who is live. */
  lemma CommitFacts(e: Env, s: Sched, k: Kv, log: seq<Emit>, i: nat, tok: Token)
    requires Sane(e, s, k, log) && i < |s.active|
    requires s.active[i].slot < e.mMax && MayCommit(e, s.active[i], k.ctx[s.active[i].slot], tok)
    ensures var x := s.active[i];
            var em := Emit(x.id, tok, tok == x.eos || |x.tokens| + 1 - x.promptLen >= x.maxTokens);
            && Sane(e, Push(s, i, tok), k, log + [em])
            && (em.done <==> !Running(Push(s, i, tok).active[i].AsJob()))
            && Follows(s, log, Push(s, i, tok), log + [em])
  {
    BatchLayout(e, s, k, log);
    CommitSane(e, s, k, log, i, tok);
    SettledRunning(e, log, s.active[i], tok);
    PushFollows(s, log, i, tok, NextEmit(e, log, s.active[i].id, tok));
  }
}
