/**
 What a rewriting of the saved entries leaves of the goals and unfinished tasks, whatever the new
 vectors: re-encoding after a model swap stores every item again, one by one, over the same store.
 */
module GoalSurvival {
  import opened Wrappers
  import opened MemoryStore
  import opened GoalManager

  // ---------------------------------------------------------------- the pinned entries along a chain

  /** Left beside the pinned entries `hard` once an entry's own old version is gone, there is room for it. */
  ghost predicate RoomAmong(lim: Limits, hard: Entries, e: Entry) {
    Fits(lim, hard - {e.key}, e.metadata.category, e.byteSize)
  }

  /** The pinned entries after one more store call, computed from the pinned entries before it. */
  ghost function HardNext(lim: Limits, hard: Entries, e: Entry, now: nat): Entries {
    if TooBig(lim, e.metadata.category, e.byteSize) then hard
    else if e.Hard(now) && RoomAmong(lim, hard, e) then hard[e.key := e]
    else hard - {e.key}
  }

  /** The pinned entries after storing the first n items. */
  ghost function HardAfter(lim: Limits, hard: Entries, items: seq<Entry>, now: nat, n: nat): Entries
    requires n <= |items|
  {
    if n == 0 then hard else HardNext(lim, HardAfter(lim, hard, items, now, n - 1), items[n - 1], now)
  }

  lemma HardLess(entries: Entries, k: string, now: nat)
    ensures HardOf(entries - {k}, now) == HardOf(entries, now) - {k}
  {
  }

  lemma HardStored(cur: Entries, e: Entry, now: nat)
    requires e.key in cur && cur[e.key] == e
    ensures HardOf(cur, now) == if e.Hard(now) then HardOf(cur - {e.key}, now)[e.key := e] else HardOf(cur - {e.key}, now)
  {
  }

  lemma HardDropped(base: Entries, cur: Entries, cat: Category, now: nat)
    requires DroppedBody(base, cur, cat, now)
    ensures HardOf(cur, now) == HardOf(base, now)
  {
  }

  lemma HardTwice(entries: Entries, now: nat)
    ensures HardOf(HardOf(entries, now), now) == HardOf(entries, now)
  {
  }

  /** What a store call does to the pinned entries depends on them and the entry alone. */
  lemma HardOutcome(lim: Limits, before: Entries, after: Entries, e: Entry, now: nat)
    requires StoredAs(lim, before, after, e, now)
    ensures HardOf(after, now) == HardNext(lim, HardOf(before, now), e, now)
  {
    hide Fits, HardOf, LastNeeded;
    var r :| Outcome(lim, before, after, e, now, r);
    RefusedIff(lim, before, after, e, now, r);
    HardLess(before, e.key, now);
    assert Unfold(0);
    assert OutcomeBody(lim, before, after, e, now, r);
    if r.Ok? {
      assert DroppedBody(before - {e.key}, after - {e.key}, e.metadata.category, now);
      HardDropped(before - {e.key}, after - {e.key}, e.metadata.category, now);
      HardStored(after, e, now);
      NoKey(HardOf(before, now), e.key, e);
    } else if r == Err(Full) {
      HardTwice(before - {e.key}, now);
    }
  }

  lemma NoKey(entries: Entries, k: string, e: Entry)
    ensures (entries - {k})[k := e] == entries[k := e]
  {
  }

  lemma {:induction false} HardChain(lim: Limits, items: seq<Entry>, now: nat, before: Entries, n: nat, after: Entries)
    requires n <= |items| && Chain(lim, items, now, before, n, after)
    ensures HardOf(after, now) == HardAfter(lim, HardOf(before, now), items, now, n)
  {
    if n > 0 {
      var mid :| Chain(lim, items, now, before, n - 1, mid) && Within(lim, mid) && StoredAs(lim, mid, after, items[n - 1], now);
      HardChain(lim, items, now, before, n - 1, mid);
      HardOutcome(lim, mid, after, items[n - 1], now);
    }
  }

  /** Other keys are left alone among the pinned entries. */
  lemma {:induction false} HardElse(lim: Limits, hard: Entries, items: seq<Entry>, now: nat, m: nat, n: nat, k: string)
    requires m <= n <= |items| && forall j :: m <= j < n ==> items[j].key != k
    ensures k in HardAfter(lim, hard, items, now, n) <==> k in HardAfter(lim, hard, items, now, m)
    ensures k in HardAfter(lim, hard, items, now, n) ==> HardAfter(lim, hard, items, now, n)[k] == HardAfter(lim, hard, items, now, m)[k]
  {
    if m < n {
      HardElse(lim, hard, items, now, m, n - 1, k);
    }
  }

  /** The item finds room when its turn comes, beside the pinned entries as rewritten so far. */
  ghost predicate FindsRoom(lim: Limits, hard: Entries, items: seq<Entry>, now: nat, i: nat)
    requires i < |items|
  {
    RoomAmong(lim, HardAfter(lim, hard, items, now, i), items[i])
  }

  ghost predicate Oversized(lim: Limits, e: Entry) {
    TooBig(lim, e.metadata.category, e.byteSize)
  }

  lemma HardAfterNext(lim: Limits, hard: Entries, items: seq<Entry>, now: nat, i: nat)
    requires i < |items|
    ensures HardAfter(lim, hard, items, now, i + 1) == HardNext(lim, HardAfter(lim, hard, items, now, i), items[i], now)
  {
  }

  lemma HardNextAt(lim: Limits, hard: Entries, e: Entry, now: nat)
    requires e.Hard(now)
    ensures var next := HardNext(lim, hard, e, now);
            && (e.key in next <==> if Oversized(lim, e) then e.key in hard else RoomAmong(lim, hard, e))
            && (e.key in next ==> next[e.key] == if Oversized(lim, e) then hard[e.key] else e)
  {
  }

  /** Among the pinned entries at the end: the new version if it found room, the old one if the new one is oversize. */
  lemma {:induction false} HardItem(lim: Limits, hard: Entries, items: seq<Entry>, now: nat, i: nat)
    requires i < |items| && DistinctKeys(items) && items[i].Hard(now)
    ensures var k, all := items[i].key, HardAfter(lim, hard, items, now, |items|);
            && (k in all <==> if Oversized(lim, items[i]) then k in hard else FindsRoom(lim, hard, items, now, i))
            && (k in all ==> all[k] == if Oversized(lim, items[i]) then hard[k] else items[i])
  {
    var k := items[i].key;
    HardElse(lim, hard, items, now, 0, i, k);
    HardElse(lim, hard, items, now, i + 1, |items|, k);
    assert HardAfter(lim, hard, items, now, 0) == hard;
    hide HardAfter, HardNext, RoomAmong, Oversized;
    HardAfterNext(lim, hard, items, now, i);
    HardNextAt(lim, HardAfter(lim, hard, items, now, i), items[i], now);
  }

  // ---------------------------------------------------------------- goals and unfinished tasks

  /** The i-th item of a saved state is a goal or an unfinished task. */
  predicate Pinned(s: PersistedState, i: nat) {
    i < |s.goals| || (i < |s.goals| + |s.tasks| && s.tasks[i - |s.goals|].status != Done)
  }

  lemma PinnedHard(s: PersistedState, answers: nat -> Option<seq<real>>, dModel: nat, now: nat, i: nat)
    requires i < Count(s) && Pinned(s, i)
    ensures Item(s, answers, dModel, now, i).Hard(now)
  {
  }

  /** A goal or unfinished task that a saved state describes is pinned in the store it was taken from. */
  lemma PinnedBefore(s: PersistedState, board: Entries, when: nat, answers: nat -> Option<seq<real>>, dModel: nat, now: nat, i: nat)
    requires Board(board) && Describes(s, board, when) && i < Count(s) && Pinned(s, i)
    ensures var k := Item(s, answers, dModel, now, i).key; k in HardOf(board, now) && Shows(s, i, board[k])
  {
    var k := Item(s, answers, dModel, now, i).key;
    if i < |s.goals| {
      assert s.goals[i] == Goals(board)[k];
      BoardAt(board, k);
    } else {
      assert s.tasks[i - |s.goals|] == Tasks(board)[k];
      BoardAt(board, k);
      TaskReads(k, board[k]);
    }
  }

  /** The entry reads as the i-th item. */
  predicate Shows(s: PersistedState, i: nat, e: Entry)
    requires Pinned(s, i)
  {
    if i < |s.goals| then e.metadata.category == Category.Goal && GoalOf(e) == s.goals[i]
    else e.metadata.category == Category.Task && TaskOf(e) == s.tasks[i - |s.goals|]
  }

  lemma ItemShows(s: PersistedState, answers: nat -> Option<seq<real>>, dModel: nat, now: nat, i: nat)
    requires i < Count(s) && Pinned(s, i)
    ensures Shows(s, i, Item(s, answers, dModel, now, i))
  {
    var v := Encode(answers(i), dModel);
    if i < |s.goals| {
      GoalRoundTrip(s.goals[i], v, now);
    } else {
      TaskRoundTrip(s.tasks[i - |s.goals|], v, now);
    }
  }

  /** The i-th item stays through a rewriting of the whole store: oversize, so untouched, or given room. */
  ghost predicate Stays(lim: Limits, s: PersistedState, before: Entries, answers: nat -> Option<seq<real>>, dModel: nat, now: nat, i: nat)
    requires i < Count(s)
  {
    var items := Items(s, answers, dModel, now);
    Oversized(lim, items[i]) || FindsRoom(lim, HardOf(before, now), items, now, i)
  }

  /**
   Re-encoding with any vectors keeps a goal or unfinished task exactly when its new entry is oversize or
   finds room beside the other pinned entries as re-encoded so far; what is kept reads as before.
   */
  lemma {:induction false} ReencodeSurvivors(lim: Limits, s: PersistedState, before: Entries, answers: nat -> Option<seq<real>>, dModel: nat,
                          now: nat, after: Entries, i: nat)
    requires Board(before) && Describes(s, before, now) && i < Count(s) && Pinned(s, i)
    requires Chain(lim, Items(s, answers, dModel, now), now, before, Count(s), after)
    ensures var k := Item(s, answers, dModel, now, i).key;
            && k in before && Shows(s, i, before[k])
            && (k in after <==> Stays(lim, s, before, answers, dModel, now, i))
            && (k in after ==> Shows(s, i, after[k]) && after[k].Hard(now))
  {
    hide Board, Describes, Chain, FindsRoom, HardAfter, Shows, DistinctKeys;
    var items := Items(s, answers, dModel, now);
    var k := items[i].key;
    ItemsDistinct(s, before, now, answers, dModel, now);
    PinnedHard(s, answers, dModel, now, i);
    PinnedBefore(s, before, now, answers, dModel, now, i);
    ItemShows(s, answers, dModel, now, i);
    HardChain(lim, items, now, before, Count(s), after);
    HardItem(lim, HardOf(before, now), items, now, i);
    PinnedKeyStays(lim, s, before, answers, dModel, now, after, i);
  }

  /** Under the key of a pinned item only pinned entries can be. */
  lemma {:induction false} PinnedKeyStays(lim: Limits, s: PersistedState, before: Entries, answers: nat -> Option<seq<real>>, dModel: nat,
                          now: nat, after: Entries, i: nat)
    requires Board(before) && Describes(s, before, now) && i < Count(s) && Pinned(s, i)
    requires Chain(lim, Items(s, answers, dModel, now), now, before, Count(s), after)
    ensures var k := Item(s, answers, dModel, now, i).key; k in after ==> k in HardOf(after, now)
  {
    hide Board, Describes, Chain, Shows, DistinctKeys;
    var items := Items(s, answers, dModel, now);
    var k := items[i].key;
    ItemsDistinct(s, before, now, answers, dModel, now);
    PinnedHard(s, answers, dModel, now, i);
    PinnedBefore(s, before, now, answers, dModel, now, i);
    if k in after {
      ChainFrom(lim, items, now, before, Count(s), after, k);
      if !(k in before && after[k] == before[k]) {
        var j :| 0 <= j < Count(s) && items[j].key == k && after[k] == items[j];
        SameItem(items, i, j);
      }
    }
  }

  lemma SameItem(items: seq<Entry>, i: nat, j: nat)
    requires i < |items| && j < |items| && DistinctKeys(items) && items[i].key == items[j].key
    ensures i == j
  {
  }

  /** Everything at the end was there before or is one of the items. */
  lemma {:induction false} ChainFrom(lim: Limits, items: seq<Entry>, now: nat, before: Entries, n: nat, after: Entries, k: string)
    requires n <= |items| && Chain(lim, items, now, before, n, after) && k in after
    ensures (k in before && after[k] == before[k]) || exists j :: 0 <= j < n && items[j].key == k && after[k] == items[j]
  {
    if n > 0 {
      var mid :| Chain(lim, items, now, before, n - 1, mid) && Within(lim, mid) && StoredAs(lim, mid, after, items[n - 1], now);
      FromBefore(lim, mid, after, items[n - 1], now, k);
      if k in mid && after[k] == mid[k] {
        ChainFrom(lim, items, now, before, n - 1, mid, k);
      }
    }
  }

  // ---------------------------------------------------------------- the whole board

  function OpenTasks(entries: Entries): map<string, Task> {
    var tasks := Tasks(entries);
    map k | k in tasks && tasks[k].status != Done :: tasks[k]
  }

  /** A goal or unfinished task at the end is one of the pinned items. */
  lemma {:induction false} ShownByItem(lim: Limits, s: PersistedState, before: Entries, answers: nat -> Option<seq<real>>, dModel: nat,
                       now: nat, after: Entries, k: string) returns (i: nat)
    requires Board(before) && Describes(s, before, now)
    requires Chain(lim, Items(s, answers, dModel, now), now, before, Count(s), after)
    requires k in Goals(after) || k in OpenTasks(after)
    ensures i < Count(s) && Pinned(s, i) && Item(s, answers, dModel, now, i).key == k
  {
    hide Chain, Board, Describes, TaskOf, GoalOf, Canon, Item, GoalKey, TaskKey;
    var items := Items(s, answers, dModel, now);
    ChainFrom(lim, items, now, before, Count(s), after, k);
    if k in before && after[k] == before[k] {
      i := ShownBefore(s, before, answers, dModel, now, k);
    } else {
      i :| 0 <= i < Count(s) && items[i].key == k && after[k] == items[i];
      CategoryOfItem(s, answers, dModel, now, i);
    }
  }

  lemma {:induction false} ShownBefore(s: PersistedState, before: Entries, answers: nat -> Option<seq<real>>, dModel: nat, now: nat, k: string)
    returns (i: nat)
    requires Board(before) && Describes(s, before, now) && (k in Goals(before) || k in OpenTasks(before))
    ensures i < Count(s) && Pinned(s, i) && Item(s, answers, dModel, now, i).key == k
  {
    BoardAt(before, k);
    if k in Goals(before) {
      i :| 0 <= i < |s.goals| && s.goals[i] == Goals(before)[k];
      GoalReads(k, before[k]);
    } else {
      var t :| 0 <= t < |s.tasks| && s.tasks[t] == Tasks(before)[k];
      TaskReads(k, before[k]);
      i := |s.goals| + t;
    }
  }

  lemma CategoryOfItem(s: PersistedState, answers: nat -> Option<seq<real>>, dModel: nat, now: nat, i: nat)
    requires i < Count(s)
    ensures var e := Item(s, answers, dModel, now, i);
            e.metadata.category == Category.Goal || (e.metadata.category == Category.Task && TaskOf(e).status != Done) <==> Pinned(s, i)
  {
    if |s.goals| <= i < |s.goals| + |s.tasks| {
      TaskRoundTrip(s.tasks[i - |s.goals|], Encode(answers(i), dModel), now);
    }
  }

  /** The same goals and unfinished tasks. */
  ghost predicate SameGoals(a: Entries, b: Entries) {
    Goals(a) == Goals(b) && OpenTasks(a) == OpenTasks(b)
  }

  lemma SameShown(s: PersistedState, i: nat, a: Entries, b: Entries, k: string)
    requires Pinned(s, i) && k in a && k in b && Shows(s, i, a[k]) && Shows(s, i, b[k])
    ensures SameAt(Goals(a), Goals(b), k) && SameAt(OpenTasks(a), OpenTasks(b), k)
    ensures k in Goals(a) || k in OpenTasks(a)
  {
  }

  /** Re-encoding loses no goal and no unfinished task exactly when each of them stays. */
  lemma {:induction false} ReencodeKeepsGoalsIff(lim: Limits, s: PersistedState, before: Entries, answers: nat -> Option<seq<real>>, dModel: nat,
                              now: nat, after: Entries)
    requires Board(before) && Describes(s, before, now)
    requires Chain(lim, Items(s, answers, dModel, now), now, before, Count(s), after)
    ensures SameGoals(after, before) <==> forall i :: 0 <= i < Count(s) && Pinned(s, i) ==> Stays(lim, s, before, answers, dModel, now, i)
  {
    hide Board, Describes, Chain, Stays, Shows, Pinned;
    if SameGoals(after, before) {
      forall i | 0 <= i < Count(s) && Pinned(s, i) ensures Stays(lim, s, before, answers, dModel, now, i) {
        ReencodeSurvivors(lim, s, before, answers, dModel, now, after, i);
        var k := Item(s, answers, dModel, now, i).key;
        SameShown(s, i, before, before, k);
      }
    }
    if forall i :: 0 <= i < Count(s) && Pinned(s, i) ==> Stays(lim, s, before, answers, dModel, now, i) {
      forall k ensures SameAt(Goals(after), Goals(before), k) && SameAt(OpenTasks(after), OpenTasks(before), k) {
        if k in Goals(before) || k in OpenTasks(before) {
          var i := ShownBefore(s, before, answers, dModel, now, k);
          ReencodeSurvivors(lim, s, before, answers, dModel, now, after, i);
          SameShown(s, i, after, before, k);
        } else if k in Goals(after) || k in OpenTasks(after) {
          var i := ShownByItem(lim, s, before, answers, dModel, now, after, k);
          ReencodeSurvivors(lim, s, before, answers, dModel, now, after, i);
          SameShown(s, i, after, before, k);
        }
      }
      SameAll(Goals(after), Goals(before));
      SameAll(OpenTasks(after), OpenTasks(before));
    }
  }

  /** Re-encoding never makes two goals current, whatever it loses. */
  lemma {:induction false} ReencodeOneCurrent(lim: Limits, s: PersistedState, before: Entries, answers: nat -> Option<seq<real>>, dModel: nat,
                           now: nat, after: Entries)
    requires Board(before) && Describes(s, before, now)
    requires Chain(lim, Items(s, answers, dModel, now), now, before, Count(s), after)
    ensures Board(after)
  {
    hide Chain;
    var items := Items(s, answers, dModel, now);
    forall k | k in after
      ensures Canon(k, after[k])
      ensures IsCurrent(after[k]) ==> k in before && IsCurrent(before[k]) {
      ChainFrom(lim, items, now, before, Count(s), after, k);
      if k in before && after[k] == before[k] {
        BoardAt(before, k);
      } else {
        var i :| 0 <= i < Count(s) && items[i].key == k && after[k] == items[i];
        ItemCanon(s, answers, dModel, now, i);
        if i < |s.goals| {
          assert s.goals[i] == Goals(before)[k];
        }
      }
    }
    assert Unfold(0);
    assert BoardBody(before);
  }
}
