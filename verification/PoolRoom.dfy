/** Conservation of slots, and what it says about the blocks a lone decoding sequence can count on. */
module PoolRoom {
  import opened Wrappers
  import opened Generation
  import opened PagedDecoder
  import opened Schedule
  import opened DecodeRows

  ghost function ActiveSlots(s: Sched): seq<nat> {
    seq(|s.active|, i requires 0 <= i < |s.active| => s.active[i].slot)
  }

  ghost function PrefillSlots(s: Sched): seq<nat> {
    seq(|s.prefilling|, i requires 0 <= i < |s.prefilling| => s.prefilling[i].slot)
  }

  /** The slots some sequence occupies. */
  ghost function Occupied(s: Sched): seq<nat> {
    ActiveSlots(s) + PrefillSlots(s)
  }

  lemma OccupiedApart(s: Sched)
    requires SlotsApart(s)
    ensures NoDup(Occupied(s)) && NoDup(Occupied(s) + s.free)
  {
    forall i, j | 0 <= i < j < |Occupied(s) + s.free| ensures (Occupied(s) + s.free)[i] != (Occupied(s) + s.free)[j] {
      if j >= |Occupied(s)| {
        assert (Occupied(s) + s.free)[j] in s.free;
      }
    }
  }

  /** n distinct numbers below n are all of them. */
  lemma Pigeonhole(l: seq<nat>, n: nat)
    requires NoDup(l) && |l| == n && forall i :: 0 <= i < n ==> l[i] < n
    ensures forall t :: 0 <= t < n ==> t in l
  {
    var e := Elems(l, n);
    ElemsBound(l, n);
    forall t | t in e ensures t in Below(n) {
      ElemsIn(l, n, t);
    }
    SameSize(e, Below(n));
    forall t: nat | t < n ensures t in l {
      assert t in Below(n);
      ElemsIn(l, n, t);
    }
  }

  lemma {:induction false} SameSize(a: set<nat>, b: set<nat>)
    requires a <= b && |a| == |b|
    ensures a == b
  {
    if x :| x in b && x !in a {
      SubsetSize(a, b - {x});
    }
  }

  /** Conservation: every slot is free or occupied by exactly one sequence. */
  lemma SlotsPartition(e: Env, s: Sched, k: Kv, log: seq<Emit>)
    requires Sane(e, s, k, log) && |s.free| + |s.active| + |s.prefilling| == e.mMax
    ensures NoDup(Occupied(s) + s.free)
    ensures forall t :: 0 <= t < e.mMax <==> t in Occupied(s) + s.free
  {
    assert Unfold(0);
    OccupiedApart(s);
    var l := Occupied(s) + s.free;
    forall i | 0 <= i < |l| ensures l[i] < e.mMax {
      if i < |s.active| {
        assert ActiveOk(e, log, k, s.active[i]);
      } else if i < |s.active| + |s.prefilling| {
        assert PrefillOk(e, log, k, s.prefilling[i - |s.active|]);
      }
    }
    Pigeonhole(l, e.mMax);
  }

  // ---------------------------------------------------------------- block sums

  ghost function SumAt(held: seq<nat>, l: seq<nat>, n: nat): nat
    requires n <= |l| && forall i :: 0 <= i < |l| ==> l[i] < |held|
  {
    if n == 0 then 0 else SumAt(held, l, n - 1) + held[l[n - 1]]
  }

  lemma {:induction false} SumAtSame(held: seq<nat>, h: seq<nat>, l: seq<nat>, n: nat)
    requires n <= |l| && |h| == |held| && forall i :: 0 <= i < |l| ==> l[i] < |held|
    requires forall i :: 0 <= i < n ==> h[l[i]] == held[l[i]]
    ensures SumAt(h, l, n) == SumAt(held, l, n)
  {
    if n > 0 {
      SumAtSame(held, h, l, n - 1);
    }
  }

  /** If everything outside l[..n] is zero, the sum is the sum over l[..n]. */
  lemma {:induction false} SumConcentrated(held: seq<nat>, l: seq<nat>, n: nat)
    requires n <= |l| && NoDup(l) && forall i :: 0 <= i < |l| ==> l[i] < |held|
    requires forall t :: 0 <= t < |held| && held[t] != 0 ==> exists i :: 0 <= i < n && l[i] == t
    ensures Sum(held) == SumAt(held, l, n)
    decreases n
  {
    if n == 0 {
      SumBound(held, 0, |held|);
    } else {
      var o := l[n - 1];
      var h := held[o := 0];
      SumUpdate(held, o, 0);
      forall t | 0 <= t < |h| && h[t] != 0 ensures exists i :: 0 <= i < n - 1 && l[i] == t {
        var i :| 0 <= i < n && l[i] == t;
      }
      SumConcentrated(h, l, n - 1);
      SumAtSame(held, h, l, n - 1);
    }
  }

  lemma {:induction false} SumAtConcat(held: seq<nat>, a: seq<nat>, b: seq<nat>, n: nat)
    requires n <= |b| && (forall i :: 0 <= i < |a| ==> a[i] < |held|) && (forall i :: 0 <= i < |b| ==> b[i] < |held|)
    ensures SumAt(held, a + b, |a| + n) == SumAt(held, a, |a|) + SumAt(held, b, n)
  {
    if n == 0 {
      SumAtPrefix(held, a, b, |a|);
    } else {
      SumAtConcat(held, a, b, n - 1);
    }
  }

  lemma {:induction false} SumAtPrefix(held: seq<nat>, a: seq<nat>, b: seq<nat>, n: nat)
    requires n <= |a| && (forall i :: 0 <= i < |a| ==> a[i] < |held|) && (forall i :: 0 <= i < |b| ==> b[i] < |held|)
    ensures SumAt(held, a + b, n) == SumAt(held, a, n)
  {
    if n > 0 {
      SumAtPrefix(held, a, b, n - 1);
    }
  }

  /** The blocks held by mid-prefill sequences. */
  ghost function PrefillHeld(s: Sched, k: Kv): nat
    requires forall i :: 0 <= i < |s.prefilling| ==> s.prefilling[i].slot < |k.held|
  {
    SumAt(k.held, PrefillSlots(s), |s.prefilling|)
  }

  lemma SlotsInRange(e: Env, s: Sched, k: Kv, log: seq<Emit>)
    requires Sane(e, s, k, log)
    ensures forall i :: 0 <= i < |s.prefilling| ==> s.prefilling[i].slot < e.mMax
    ensures forall i :: 0 <= i < |s.active| ==> s.active[i].slot < e.mMax && s.active[i].tokens != []
    ensures forall i, j :: 0 <= i < j < |s.active| ==> s.active[i].slot != s.active[j].slot
    ensures SlotsApart(s)
  {
    assert Unfold(0);
    forall i | 0 <= i < |s.prefilling| ensures s.prefilling[i].slot < e.mMax {
      assert PrefillOk(e, log, k, s.prefilling[i]);
    }
    forall i | 0 <= i < |s.active| ensures s.active[i].slot < e.mMax && s.active[i].tokens != [] {
      assert ActiveOk(e, log, k, s.active[i]);
    }
  }

  /** All held blocks are held by decoding or prefilling sequences. */
  lemma HeldByOwners(e: Env, s: Sched, k: Kv, log: seq<Emit>)
    requires Sane(e, s, k, log) && |s.free| + |s.active| + |s.prefilling| == e.mMax
    ensures forall i :: 0 <= i < |s.prefilling| ==> s.prefilling[i].slot < |k.held|
    ensures forall i :: 0 <= i < |ActiveSlots(s)| ==> ActiveSlots(s)[i] < |k.held|
    ensures Sum(k.held) == SumAt(k.held, ActiveSlots(s), |s.active|) + PrefillHeld(s, k)
  {
    SlotsInRange(e, s, k, log);
    OccupiedHold(e, s, k, log);
    SumAtConcat(k.held, ActiveSlots(s), PrefillSlots(s), |s.prefilling|);
  }

  lemma OccupiedHold(e: Env, s: Sched, k: Kv, log: seq<Emit>)
    requires Sane(e, s, k, log) && |s.free| + |s.active| + |s.prefilling| == e.mMax
    requires forall i :: 0 <= i < |Occupied(s)| ==> Occupied(s)[i] < |k.held|
    ensures Sum(k.held) == SumAt(k.held, Occupied(s), |Occupied(s)|)
  {
    SlotsInRange(e, s, k, log);
    OccupiedApart(s);
    var l := Occupied(s);
    forall t | 0 <= t < |k.held| && k.held[t] != 0 ensures exists i :: 0 <= i < |l| && l[i] == t {
      NonzeroOccupied(e, s, k, log, t);
    }
    SumConcentrated(k.held, l, |l|);
  }

  lemma NonzeroOccupied(e: Env, s: Sched, k: Kv, log: seq<Emit>, t: nat)
    requires Sane(e, s, k, log) && |s.free| + |s.active| + |s.prefilling| == e.mMax
    requires t < |k.held| && k.held[t] != 0
    ensures t in Occupied(s)
  {
    SlotsPartition(e, s, k, log);
    assert t in Occupied(s) + s.free;
    if t in s.free {
      FreeHoldsNothing(e, s, k, log, t);
    }
  }

  lemma FreeHoldsNothing(e: Env, s: Sched, k: Kv, log: seq<Emit>, t: nat)
    requires Sane(e, s, k, log) && t in s.free
    ensures EmptySlot(k, t)
  {
    assert Unfold(0);
    var i :| 0 <= i < |s.free| && s.free[i] == t;
    assert EmptySlot(k, s.free[i]);
  }

  /** The pool can hold what mid-prefill sequences hold plus one full-length sequence. */
  ghost predicate RoomForOne(s: Sched, k: Kv, maxSeq: nat, nBlocks: nat) {
    && (forall i :: 0 <= i < |s.prefilling| ==> s.prefilling[i].slot < |k.held|)
    && PrefillHeld(s, k) + Blocks(maxSeq) <= nBlocks
  }

  /** With that room, a lone decoding sequence can always grow. */
  lemma OneFits(e: Env, s: Sched, k: Kv, log: seq<Emit>, nBlocks: nat, freeBlocks: nat)
    requires Sane(e, s, k, log) && |s.free| + |s.active| + |s.prefilling| == e.mMax
    requires |s.active| == 1 && |s.active[0].tokens| <= e.maxSeq && s.active[0].slot < |k.held|
    requires nBlocks <= freeBlocks + Sum(k.held)
    requires RoomForOne(s, k, e.maxSeq, nBlocks)
    ensures ShortOf(k.held[s.active[0].slot], |s.active[0].tokens|) <= freeBlocks
  {
    LoneHolds(e, s, k, log);
  }

  lemma LoneHolds(e: Env, s: Sched, k: Kv, log: seq<Emit>)
    requires Sane(e, s, k, log) && |s.free| + |s.active| + |s.prefilling| == e.mMax
    requires |s.active| == 1 && s.active[0].slot < |k.held|
    ensures forall i :: 0 <= i < |s.prefilling| ==> s.prefilling[i].slot < |k.held|
    ensures Sum(k.held) == k.held[s.active[0].slot] + PrefillHeld(s, k)
  {
    HeldByOwners(e, s, k, log);
    assert SumAt(k.held, ActiveSlots(s), 1) == SumAt(k.held, ActiveSlots(s), 0) + k.held[ActiveSlots(s)[0]];
  }

  /**
   Evicting decoding sequences is not always enough: mid-prefill sequences keep their blocks. When
   every unheld block is available and none is shared, the last decoding sequence can grow exactly
   when its own blocks at its next length and those of the mid-prefill sequences fit the pool.
   A prefix block that several slots share is counted once for each of them, so with sharing
   `nBlocks < freeBlocks + Sum(k.held)`: the right-hand condition is then still enough, by `OneFits`,
   but no longer needed.
   */
  lemma OneFitsIff(e: Env, s: Sched, k: Kv, log: seq<Emit>, nBlocks: nat, freeBlocks: nat)
    requires Sane(e, s, k, log) && |s.free| + |s.active| + |s.prefilling| == e.mMax
    requires |s.active| == 1 && s.active[0].slot < |k.held|
    requires nBlocks == freeBlocks + Sum(k.held)
    ensures forall i :: 0 <= i < |s.prefilling| ==> s.prefilling[i].slot < |k.held|
    ensures ShortOf(k.held[s.active[0].slot], |s.active[0].tokens|) <= freeBlocks
            <==> PrefillHeld(s, k) + Max(k.held[s.active[0].slot], Blocks(|s.active[0].tokens|)) <= nBlocks
  {
    LoneHolds(e, s, k, log);
  }

  lemma Monotone(a: nat, b: nat, c: nat)
    requires a <= b
    ensures a * c <= b * c
  {
  }
}
