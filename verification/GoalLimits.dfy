/** Inputs on which the store and the goals in it lose something although no call is misused. */
module GoalLimits {
  import opened Wrappers
  import opened MemoryStore
  import opened GoalManager
  import opened GoalSurvival

  /** A vector of n zeros. */
  function Zeros(n: nat): (v: seq<real>)
    ensures |v| == n
  {
    seq(n, _ => 0.0)
  }

  lemma OneEntry(k: string, e: Entry, cat: Category)
    ensures Bytes(map[k := e]) == e.byteSize && BytesIn(map[k := e], cat) == ShareIn(e, cat)
  {
    var none: Entries := map[];
    EmptyBytes(cat);
    BytesPut(none, k, e);
    BytesInPut(none, k, e, cat);
    assert none[k := e] == map[k := e];
  }

  lemma TwoEntries(j: string, d: Entry, k: string, e: Entry, cat: Category)
    requires j != k
    ensures Bytes(map[j := d, k := e]) == d.byteSize + e.byteSize
    ensures BytesIn(map[j := d, k := e], cat) == ShareIn(d, cat) + ShareIn(e, cat)
  {
    var one: Entries := map[j := d];
    OneEntry(j, d, cat);
    BytesPut(one, k, e);
    BytesInPut(one, k, e, cat);
    assert one[k := e] == map[j := d, k := e];
  }

  lemma WithinOne(lim: Limits, k: string, e: Entry)
    requires lim.maxEntries >= 1 && e.byteSize <= lim.byteBudget && lim.categoryBudgets == map[]
    ensures Within(lim, map[k := e])
  {
    forall cat ensures BytesIn(map[k := e], cat) <= lim.CategoryBudget(cat) && Bytes(map[k := e]) <= lim.byteBudget {
      OneEntry(k, e, cat);
    }
    OneEntry(k, e, Finding);
  }

  // ---------------------------------------------------------------- a restore that loses a finished task

  const ONE: Limits := Limits(1, 100, map[])
  const FINISHED: Task := Task.Task("a", "g", "first", Done)
  const OPEN: Task := Task.Task("b", "g", "second", Active)

  function TaskItem(t: Task): Entry {
    TaskEntry(t, Zeros(1), 0)
  }

  function TwoTasks(): Entries {
    map[TaskKey("a") := TaskItem(FINISHED), TaskKey("b") := TaskItem(OPEN)]
  }

  function SavedTasks(): PersistedState {
    PersistedState([], [FINISHED, OPEN], None)
  }

  lemma TaskKeysDiffer()
    ensures TaskKey("a") != TaskKey("b") && STATUS_KEY !in TwoTasks()
  {
    assert TaskKey("a")[5] != TaskKey("b")[5];
    KeyOf("a");
    KeyOf("b");
    KeysApart(TaskKey("a"));
    KeysApart(TaskKey("b"));
  }

  /** A board of two entries in the manager's form, not both current. */
  lemma BoardOfTwo(j: string, d: Entry, k: string, e: Entry)
    requires j != k && Canon(j, d) && Canon(k, e) && !IsCurrent(e)
    ensures Board(map[j := d, k := e])
  {
    assert Unfold(0);
  }

  lemma TasksOfTwo(j: string, d: Entry, k: string, e: Entry)
    requires j != k && d.metadata.category == e.metadata.category == Category.Task
    ensures Tasks(map[j := d, k := e]) == map[j := TaskOf(d), k := TaskOf(e)] && Goals(map[j := d, k := e]) == map[]
  {
  }

  lemma Lists2(t: Task, u: Task)
    requires TaskKey(t.taskId) != TaskKey(u.taskId)
    ensures EnumeratesTasks([t, u], map[TaskKey(t.taskId) := t, TaskKey(u.taskId) := u])
  {
    assert [t, u][0] == t && [t, u][1] == u;
  }

  lemma TasksDescribed()
    ensures Board(TwoTasks()) && Describes(SavedTasks(), TwoTasks(), 0)
  {
    hide Canon, TaskOf, Tasks, Goals, Board, EnumeratesTasks, TaskItem;
    var j, k := TaskKey("a"), TaskKey("b");
    TaskKeysDiffer();
    ItemOfTask(FINISHED);
    ItemOfTask(OPEN);
    BoardOfTwo(j, TaskItem(FINISHED), k, TaskItem(OPEN));
    TasksOfTwo(j, TaskItem(FINISHED), k, TaskItem(OPEN));
    Lists2(FINISHED, OPEN);
  }

  lemma ItemOfTask(t: Task)
    ensures var e := TaskItem(t);
            && e.key == TaskKey(t.taskId) && e.metadata.category == Category.Task && e.byteSize == 4
            && Canon(e.key, e) && TaskOf(e) == t && !IsCurrent(e) && e.pinned == (t.status != Done)
  {
    TaskRoundTrip(t, Zeros(1), 0);
  }

  /** An entry that fits beside what is left once everything droppable is gone. */
  lemma StoredAlone(lim: Limits, before: Entries, e: Entry, now: nat)
    requires lim.maxEntries >= 1 && lim.categoryBudgets == map[] && e.byteSize <= lim.byteBudget
    requires Shrunk(lim, before - {e.key}, map[], e.metadata.category, e.byteSize, now)
    ensures Outcome(lim, before, map[e.key := e], e, now, Ok(()))
  {
    EmptyBytes(e.metadata.category);
    var none: Entries := map[];
    assert map[e.key := e] - {e.key} == none;
    OutcomeOk(lim, before, map[e.key := e], none, e, now);
  }

  lemma FirstOfOne(a: Entry)
    requires a.byteSize == 4
    ensures Outcome(ONE, map[], map[a.key := a], a, 0, Ok(()))
  {
    var none: Entries := map[];
    assert none - {a.key} == none;
    RoomStart(ONE, none, a.metadata.category, a.byteSize, 0);
    StoredAlone(ONE, none, a, 0);
  }

  lemma SecondOfOne(a: Entry, b: Entry)
    requires b.byteSize == 4 && a.key != b.key && !a.pinned && a.metadata.category == b.metadata.category
    ensures Outcome(ONE, map[a.key := a], map[b.key := b], b, 0, Ok(()))
  {
    var none: Entries := map[];
    var one: Entries := map[a.key := a];
    assert one - {b.key} == one && one - {a.key} == none;
    RoomStart(ONE, one, b.metadata.category, b.byteSize, 0);
    assert !Fits(ONE, one, b.metadata.category, b.byteSize);
    assert MayDrop(one, a.key, b.metadata.category, 0);
    RoomStep(ONE, one, one, none, b.metadata.category, b.byteSize, 0);
    StoredAlone(ONE, one, b, 0);
  }

  /**
   Every store call of a restore may succeed and an entry still be lost: a finished task is unpinned, so
   the next task evicts it from a store of one.
   */
  lemma RestoreMayDrop()
    ensures Board(TwoTasks()) && Describes(SavedTasks(), TwoTasks(), 0)
    ensures Chain(ONE, Items(SavedTasks(), _ => Some(Zeros(1)), 1, 0), 0, map[], 2, map[TaskKey("b") := TaskItem(OPEN)])
    ensures Outcome(ONE, map[], map[TaskKey("a") := TaskItem(FINISHED)], TaskItem(FINISHED), 0, Ok(()))
    ensures Outcome(ONE, map[TaskKey("a") := TaskItem(FINISHED)], map[TaskKey("b") := TaskItem(OPEN)], TaskItem(OPEN), 0, Ok(()))
  {
    hide TaskItem, Board, Describes, Outcome, Canon, TaskOf;
    TasksDescribed();
    TaskKeysDiffer();
    ItemOfTask(FINISHED);
    ItemOfTask(OPEN);
    var none: Entries := map[];
    var a, b := TaskItem(FINISHED), TaskItem(OPEN);
    FirstOfOne(a);
    SecondOfOne(a, b);
    WithinNone(ONE);
    WithinOne(ONE, a.key, a);
    ItemsOfTasks();
    ChainOfTwo(ONE, Items(SavedTasks(), _ => Some(Zeros(1)), 1, 0), 0, none, map[a.key := a], map[b.key := b]);
  }

  lemma WithinNone(lim: Limits)
    ensures Within(lim, map[])
  {
    forall cat ensures BytesIn(map[], cat) == Bytes(map[]) == 0 {
      EmptyBytes(cat);
    }
  }

  lemma ItemsOfTasks()
    ensures Items(SavedTasks(), _ => Some(Zeros(1)), 1, 0) == [TaskItem(FINISHED), TaskItem(OPEN)]
  {
  }

  lemma {:induction false} ChainOfTwo(lim: Limits, items: seq<Entry>, now: nat, before: Entries, mid: Entries, after: Entries)
    requires |items| == 2 && Within(lim, before) && Within(lim, mid)
    requires StoredAs(lim, before, mid, items[0], now) && StoredAs(lim, mid, after, items[1], now)
    ensures Chain(lim, items, now, before, 2, after)
  {
    assert Chain(lim, items, now, before, 0, before);
    assert Chain(lim, items, now, before, 1, mid);
  }

  // ---------------------------------------------------------------- a model swap that loses a goal

  const TWO: Limits := Limits(2, 100, map[])
  const FIRST: Goal := Goal.Goal("a", "first", true)
  const SECOND: Goal := Goal.Goal("b", "second", false)

  /** A goal stored with a vector of n floats. */
  function GoalItem(g: Goal, n: nat): Entry {
    GoalEntry(g, Zeros(n), 0)
  }

  function TwoGoals(): Entries {
    map[GoalKey("a") := GoalItem(FIRST, 12), GoalKey("b") := GoalItem(SECOND, 12)]
  }

  function SavedGoals(): PersistedState {
    PersistedState([FIRST, SECOND], [], None)
  }

  /** The encoder of the new model answers 16 floats. */
  function Wider(): nat -> Option<seq<real>> {
    _ => Some(Zeros(16))
  }

  lemma GoalKeysDiffer()
    ensures GoalKey("a") != GoalKey("b") && STATUS_KEY !in TwoGoals()
  {
    assert GoalKey("a")[5] != GoalKey("b")[5];
    KeyOf("a");
    KeyOf("b");
    KeysApart(GoalKey("a"));
    KeysApart(GoalKey("b"));
  }

  lemma GoalsOfTwo(j: string, d: Entry, k: string, e: Entry)
    requires j != k && d.metadata.category == e.metadata.category == Category.Goal
    ensures Goals(map[j := d, k := e]) == map[j := GoalOf(d), k := GoalOf(e)] && Tasks(map[j := d, k := e]) == map[]
  {
  }

  lemma ListsGoals(g: Goal, h: Goal)
    requires GoalKey(g.goalId) != GoalKey(h.goalId)
    ensures EnumeratesGoals([g, h], map[GoalKey(g.goalId) := g, GoalKey(h.goalId) := h])
  {
    assert [g, h][0] == g && [g, h][1] == h;
  }

  lemma ItemOfGoal(g: Goal, n: nat)
    ensures var e := GoalItem(g, n);
            && e.key == GoalKey(g.goalId) && e.metadata.category == Category.Goal && e.byteSize == 4 * n
            && Canon(e.key, e) && GoalOf(e) == g && IsCurrent(e) == g.isCurrent && e.Hard(0)
  {
    GoalRoundTrip(g, Zeros(n), 0);
  }

  lemma GoalsDescribed()
    ensures Board(TwoGoals()) && Describes(SavedGoals(), TwoGoals(), 0)
  {
    hide Canon, GoalOf, Tasks, Goals, Board, EnumeratesGoals, GoalItem;
    GoalKeysDiffer();
    ItemOfGoal(FIRST, 12);
    ItemOfGoal(SECOND, 12);
    BoardOfTwo(GoalKey("a"), GoalItem(FIRST, 12), GoalKey("b"), GoalItem(SECOND, 12));
    GoalsOfTwo(GoalKey("a"), GoalItem(FIRST, 12), GoalKey("b"), GoalItem(SECOND, 12));
    ListsGoals(FIRST, SECOND);
  }

  lemma ItemsOfGoals()
    ensures Items(SavedGoals(), Wider(), 16, 0) == [GoalItem(FIRST, 16), GoalItem(SECOND, 16)]
  {
  }

  lemma TwoGoalsWithin()
    ensures Within(TWO, TwoGoals())
  {
    hide GoalItem;
    GoalKeysDiffer();
    ItemOfGoal(FIRST, 12);
    ItemOfGoal(SECOND, 12);
    var entries: Entries := TwoGoals();
    forall cat ensures BytesIn(entries, cat) <= 96 && Bytes(entries) == 96 {
      TwoEntries(GoalKey("a"), GoalItem(FIRST, 12), GoalKey("b"), GoalItem(SECOND, 12), cat);
    }
    assert Bytes(entries) == 96 by {
      TwoEntries(GoalKey("a"), GoalItem(FIRST, 12), GoalKey("b"), GoalItem(SECOND, 12), Finding);
    }
    assert entries.Keys == {GoalKey("a"), GoalKey("b")};
  }

  /** The first goal no longer fits beside the second. */
  lemma FirstRefused(a: Entry, b: Entry, e: Entry)
    requires a.key == e.key != b.key && b.Hard(0) && b.byteSize == 48 && e.byteSize == 64
    ensures Outcome(TWO, map[a.key := a, b.key := b], map[b.key := b], e, 0, Err(Full))
  {
    var base: Entries := map[b.key := b];
    assert map[a.key := a, b.key := b] - {e.key} == base;
    OneEntry(b.key, b, e.metadata.category);
    assert HardOf(base, 0) == base;
  }

  lemma SecondReplaced(b: Entry, e: Entry)
    requires b.key == e.key && e.byteSize == 64
    ensures Outcome(TWO, map[b.key := b], map[e.key := e], e, 0, Ok(()))
  {
    var one, none: Entries := map[b.key := b], map[];
    assert one - {e.key} == none;
    RoomStart(TWO, none, e.metadata.category, e.byteSize, 0);
    StoredAlone(TWO, one, e, 0);
  }

  /**
   Two goals of twelve floats in a store of a hundred bytes. Re-encoded at sixteen floats, the first is
   refused for lack of room, its old entry already gone; the second is stored.
   */
  lemma SwapLosesGoal()
    ensures Within(TWO, TwoGoals()) && Board(TwoGoals()) && Describes(SavedGoals(), TwoGoals(), 0)
    ensures Chain(TWO, Items(SavedGoals(), Wider(), 16, 0), 0, TwoGoals(), 2, map[GoalKey("b") := GoalItem(SECOND, 16)])
    ensures Pinned(SavedGoals(), 0) && !Stays(TWO, SavedGoals(), TwoGoals(), Wider(), 16, 0, 0)
    ensures Goals(map[GoalKey("b") := GoalItem(SECOND, 16)]) == map[GoalKey("b") := SECOND]
  {
    hide GoalItem, Board, Describes, Outcome, Canon, GoalOf, Stays, Within;
    GoalsDescribed();
    GoalKeysDiffer();
    TwoGoalsWithin();
    ItemOfGoal(FIRST, 12);
    ItemOfGoal(SECOND, 12);
    ItemOfGoal(FIRST, 16);
    ItemOfGoal(SECOND, 16);
    var a, b, d, e := GoalItem(FIRST, 12), GoalItem(SECOND, 12), GoalItem(FIRST, 16), GoalItem(SECOND, 16);
    FirstRefused(a, b, d);
    SecondReplaced(b, e);
    WithinOne(TWO, b.key, b);
    ItemsOfGoals();
    ChainOfTwo(TWO, Items(SavedGoals(), Wider(), 16, 0), 0, TwoGoals(), map[b.key := b], map[e.key := e]);
    ReencodeSurvivors(TWO, SavedGoals(), TwoGoals(), Wider(), 16, 0, map[e.key := e], 0);
  }

  // ---------------------------------------------------------------- a goal set without room

  /** In a store of one entry a second goal is refused: its id comes back, and no goal is current any more. */
  method SetGoalRefused() returns (m: Manager, id: string)
    ensures m.Valid() && id == "b"
    ensures Goals(m.store.entries) == map[GoalKey("a") := Goal.Goal("a", "first", false)]
  {
    hide Goals, Tasks, Board, Welcome, Cleared, Unmarked, TasksKept, Consistent, Within;
    var store := new Store.WithBudget(1, 100, map[]);
    m := new Manager(store, 1);
    AloneWelcome(m.store.limits, GoalEntry(Goal.Goal("a", "first", true), Encode(None, 1), 0));
    id := m.SetGoal("first", "a", None, 0);
    NoSecond(m.store.limits, m.store.entries, "a", "b", GoalEntry(Goal.Goal("b", "second", true), Encode(None, 1), 0));
    id := m.SetGoal("second", "b", None, 0);
    Unmark1(Goal.Goal("a", "first", true), "b");
  }

  lemma Unmark1(g: Goal, other: string)
    requires GoalKey(g.goalId) != GoalKey(other)
    ensures Unmarked(map[GoalKey(g.goalId) := g]) - {GoalKey(other)} == map[GoalKey(g.goalId) := g.(isCurrent := false)]
  {
  }

  lemma AloneWelcome(lim: Limits, e: Entry)
    requires lim == ONE && e.byteSize == 4
    ensures Welcome(lim, Cleared(map[], 0), e, 0) && Unmarked(Goals(map[])) == map[]
  {
    EmptyBytes(e.metadata.category);
    var none: Entries := map[];
    assert Cleared(none, 0) == none && HardOf(none - {e.key}, 0) == none;
  }

  lemma NoSecond(lim: Limits, entries: Entries, id: string, other: string, e: Entry)
    requires lim == ONE && Board(entries) && GoalKey(id) in Goals(entries) && id != other && e.key == GoalKey(other)
    ensures !Welcome(lim, Cleared(entries, 0), e, 0) && GoalKey(id) != GoalKey(other)
  {
    var k := GoalKey(id);
    assert k[5..] == id && e.key[5..] == other;
    ClearedBoard(entries, 0);
    BoardAt(Cleared(entries, 0), k);
    assert k in HardOf(Cleared(entries, 0) - {e.key}, 0);
  }

  // ---------------------------------------------------------------- a refused store call

  const THREE: Limits := Limits(3, 100, map[])

  /** An entry of n floats. */
  function Note(key: string, n: nat, pinned: bool): Entry {
    NewEntry(key, Zeros(n), Metadata(key, 0, Finding, [], ""), StoreOptions(pinned, None), 0)
  }

  function ThreeNotes(): Entries {
    map["b" := Note("b", 20, true), "c" := Note("c", 1, false)]["a" := Note("a", 1, true)]
  }

  /** Refused for lack of room beside a pinned entry, a store call has dropped its own old entry and the unpinned one. */
  lemma RefusedStoreDrops()
    ensures Within(THREE, ThreeNotes())
    ensures Outcome(THREE, ThreeNotes(), map["b" := Note("b", 20, true)], Note("a", 10, true), 0, Err(Full))
  {
    var b, c, a := Note("b", 20, true), Note("c", 1, false), Note("a", 1, true);
    var two: Entries := map["b" := b, "c" := c];
    forall cat ensures BytesIn(ThreeNotes(), cat) <= 88 && Bytes(ThreeNotes()) == 88 {
      TwoEntries("b", b, "c", c, cat);
      BytesPut(two, "a", a);
      BytesInPut(two, "a", a, cat);
    }
    assert Bytes(ThreeNotes()) == 88 by {
      TwoEntries("b", b, "c", c, Finding);
      BytesPut(two, "a", a);
    }
    assert ThreeNotes().Keys == {"a", "b", "c"};
    NotesRefused(two, b, c);
  }

  lemma NotesRefused(two: Entries, b: Entry, c: Entry)
    requires b == Note("b", 20, true) && c == Note("c", 1, false) && two == map["b" := b, "c" := c]
    ensures Outcome(THREE, ThreeNotes(), map["b" := b], Note("a", 10, true), 0, Err(Full))
  {
    assert ThreeNotes() - {"a"} == two;
    assert HardOf(two, 0) == map["b" := b];
    OneEntry("b", b, Finding);
  }
}
