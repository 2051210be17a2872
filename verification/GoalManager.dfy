/**
 Goals, tasks and a rolling status kept as tagged entries of the memory store. At most one goal is
 current; goals and unfinished tasks are pinned, so pressure on the store never loses them.
 */
module GoalManager {
  import opened Wrappers
  import opened MemoryStore

  datatype TaskStatus = Active | Done | Blocked

  datatype Goal = Goal(goalId: string, text: string, isCurrent: bool)

  datatype Task = Task(taskId: string, goalId: string, text: string, status: TaskStatus)

  datatype StatusEntry = StatusEntry(text: string, goalId: string)

  datatype PersistedState = PersistedState(goals: seq<Goal>, tasks: seq<Task>, status: Option<StatusEntry>)

  const CURRENT: string := "current"
  const STATUS_KEY: string := "status:current"
  const STATUS_TTL_SECONDS: nat := 3600

  function GoalKey(id: string): string {
    "goal:" + id
  }

  function TaskKey(id: string): string {
    "task:" + id
  }

  function StatusTag(st: TaskStatus): string {
    match st
    case Active => "active"
    case Done => "done"
    case Blocked => "blocked"
  }

  function FromTag(tag: string): Option<TaskStatus> {
    if tag == "active" then Some(Active)
    else if tag == "done" then Some(Done)
    else if tag == "blocked" then Some(Blocked)
    else None
  }

  /** What follows the prefix in the first tag that has it. */
  function ExtractId(tags: seq<string>, prefix: string): Option<string> {
    if tags == [] then None
    else if prefix <= tags[0] then Some(tags[0][|prefix|..])
    else ExtractId(tags[1..], prefix)
  }

  function StatusIn(tags: seq<string>): TaskStatus {
    if tags == [] then Active
    else if FromTag(tags[0]).Some? then FromTag(tags[0]).value
    else StatusIn(tags[1..])
  }

  function WithoutCurrent(tags: seq<string>): seq<string> {
    if tags == [] then []
    else (if tags[0] == CURRENT then [] else [tags[0]]) + WithoutCurrent(tags[1..])
  }

  function WithoutStatus(tags: seq<string>): seq<string> {
    if tags == [] then []
    else (if FromTag(tags[0]).Some? then [] else [tags[0]]) + WithoutStatus(tags[1..])
  }

  /** Taking off the current tag leaves every other tag. */
  lemma {:induction false} KeptTags(tags: seq<string>, t: string)
    ensures t in WithoutCurrent(tags) <==> t in tags && t != "current"
    ensures t in WithoutStatus(tags) <==> t in tags && t != "active" && t != "done" && t != "blocked"
  {
    if tags != [] {
      KeptTags(tags[1..], t);
      assert tags == [tags[0]] + tags[1..];
    }
  }

  function OrEmpty(id: Option<string>): string {
    if id.Some? then id.value else ""
  }

  // ---------------------------------------------------------------- what the entries say

  function GoalOf(e: Entry): Goal {
    Goal.Goal(OrEmpty(ExtractId(e.metadata.tags, "goal:")), e.metadata.textSummary, CURRENT in e.metadata.tags)
  }

  function TaskOf(e: Entry): Task {
    Task.Task(OrEmpty(ExtractId(e.metadata.tags, "task:")), OrEmpty(ExtractId(e.metadata.tags, "goal:")), e.metadata.textSummary,
         StatusIn(e.metadata.tags))
  }

  function StatusOf(e: Entry): StatusEntry {
    StatusEntry(e.metadata.textSummary, OrEmpty(ExtractId(e.metadata.tags, "goal:")))
  }

  /** Every goal, under its store key. */
  function Goals(entries: Entries): map<string, Goal> {
    map k | k in entries && entries[k].metadata.category == Category.Goal :: GoalOf(entries[k])
  }

  function Tasks(entries: Entries): map<string, Task> {
    map k | k in entries && entries[k].metadata.category == Category.Task :: TaskOf(entries[k])
  }

  function LiveStatus(entries: Entries, now: nat): Option<StatusEntry> {
    if STATUS_KEY in entries && !entries[STATUS_KEY].Expired(now) then Some(StatusOf(entries[STATUS_KEY])) else None
  }

  predicate IsCurrent(e: Entry) {
    e.metadata.category == Category.Goal && CURRENT in e.metadata.tags
  }

  // ---------------------------------------------------------------- what the manager keeps in the store

  predicate CanonGoal(k: string, e: Entry) {
    (e.metadata.tags == [k] || e.metadata.tags == [k, CURRENT]) && e.pinned && e.expiresAt.None?
  }

  predicate CanonTask(k: string, e: Entry) {
    && |e.metadata.tags| == 3
    && "goal:" <= e.metadata.tags[0]
    && e.metadata.tags[1] == k
    && FromTag(e.metadata.tags[2]).Some?
    && e.pinned == (FromTag(e.metadata.tags[2]) != Some(Done))
    && e.expiresAt.None?
  }

  predicate CanonStatus(e: Entry) {
    |e.metadata.tags| == 1 && "goal:" <= e.metadata.tags[0] && !e.pinned && e.expiresAt.Some?
  }

  /** The manager's key spaces hold exactly its three categories, in the form it writes them. */
  predicate Canon(k: string, e: Entry) {
    && e.key == k
    && (e.metadata.category == Category.Goal <==> "goal:" <= k)
    && (e.metadata.category == Category.Task <==> "task:" <= k)
    && (e.metadata.category == Category.Status <==> k == STATUS_KEY)
    && (e.metadata.category == Category.Goal ==> CanonGoal(k, e))
    && (e.metadata.category == Category.Task ==> CanonTask(k, e))
    && (e.metadata.category == Category.Status ==> CanonStatus(e))
  }

  ghost predicate BoardBody(entries: Entries) {
    && (forall k {:trigger Canon(k, entries[k])} :: k in entries ==> Canon(k, entries[k]))
    && (forall j, k :: j in entries && k in entries && IsCurrent(entries[j]) && IsCurrent(entries[k]) ==> j == k)
  }

  /** Entries in the manager's form, at most one goal current. */
  ghost predicate Board(entries: Entries) {
    forall n :: Unfold(n) ==> BoardBody(entries)
  }

  lemma BoardAt(entries: Entries, k: string)
    requires Board(entries) && k in entries
    ensures Canon(k, entries[k])
  {
    assert Unfold(0);
    assert Canon(k, entries[k]);
  }

  lemma KeysApart(k: string)
    ensures !("goal:" <= k && "task:" <= k)
    ensures "goal:" <= k || "task:" <= k ==> k != STATUS_KEY
  {
    if "goal:" <= k {
      assert k[0] == 'g';
    }
    if "task:" <= k {
      assert k[0] == 't';
    }
  }

  lemma KeyOf(id: string)
    ensures "goal:" <= GoalKey(id) && GoalKey(id)[5..] == id
    ensures "task:" <= TaskKey(id) && TaskKey(id)[5..] == id
  {
  }

  lemma TagApart(tag: string)
    requires "goal:" <= tag || "task:" <= tag
    ensures FromTag(tag).None? && tag != CURRENT
  {
    assert tag[4] == ':';
  }

  /** A goal entry reads back as its id, text and current mark. */
  lemma GoalReads(k: string, e: Entry)
    requires Canon(k, e) && e.metadata.category == Category.Goal
    ensures GoalOf(e) == Goal.Goal(k[5..], e.metadata.textSummary, IsCurrent(e)) && GoalKey(GoalOf(e).goalId) == k
    ensures IsCurrent(e) <==> e.metadata.tags == [k, CURRENT]
    ensures WithoutCurrent(e.metadata.tags) == [k]
  {
    TagApart(k);
    assert k == "goal:" + k[5..];
    if IsCurrent(e) {
      assert e.metadata.tags == [k, CURRENT];
      assert e.metadata.tags[1..] == [CURRENT];
      assert WithoutCurrent([CURRENT]) == [];
    } else {
      assert [k, CURRENT][1] == CURRENT;
    }
  }

  lemma TaskReads(k: string, e: Entry)
    requires Canon(k, e) && e.metadata.category == Category.Task
    ensures TaskOf(e) == Task.Task(k[5..], e.metadata.tags[0][5..], e.metadata.textSummary, FromTag(e.metadata.tags[2]).value)
    ensures TaskKey(TaskOf(e).taskId) == k && GoalKey(TaskOf(e).goalId) == e.metadata.tags[0]
    ensures WithoutStatus(e.metadata.tags) == e.metadata.tags[..2]
    ensures e.pinned <==> TaskOf(e).status != Done
  {
    var tags := e.metadata.tags;
    TagApart(tags[0]);
    TagApart(tags[1]);
    KeysApart(tags[0]);
    assert tags == [tags[0], tags[1], tags[2]];
    assert tags[1..] == [tags[1], tags[2]];
    assert tags[1..][1..] == [tags[2]];
    assert k == "task:" + k[5..];
    assert tags[0] == "goal:" + tags[0][5..];
    assert WithoutStatus([tags[2]]) == [];
    assert WithoutStatus(tags[1..]) == [tags[1]];
    assert ExtractId(tags, "goal:") == Some(tags[0][5..]);
    assert !("task:" <= tags[0]);
    assert ExtractId(tags, "task:") == ExtractId(tags[1..], "task:") == Some(k[5..]);
    assert StatusIn(tags) == StatusIn(tags[1..]) == StatusIn([tags[2]]) == FromTag(tags[2]).value;
  }

  lemma StatusReads(k: string, e: Entry)
    requires Canon(k, e) && e.metadata.category == Category.Status
    ensures StatusOf(e) == StatusEntry(e.metadata.textSummary, e.metadata.tags[0][5..])
  {
  }

  // ---------------------------------------------------------------- the entries it writes

  function GoalTags(g: Goal): seq<string> {
    if g.isCurrent then [GoalKey(g.goalId), CURRENT] else [GoalKey(g.goalId)]
  }

  function PinnedNoTtl(): StoreOptions {
    StoreOptions(true, None)
  }

  function TaskOptions(st: TaskStatus): StoreOptions {
    if st == Done then StoreOptions(false, None) else PinnedNoTtl()
  }

  function GoalMetadata(g: Goal): Metadata {
    Metadata(GoalKey(g.goalId), 0, Category.Goal, GoalTags(g), g.text)
  }

  function TaskMetadata(t: Task): Metadata {
    Metadata(TaskKey(t.taskId), 0, Category.Task, [GoalKey(t.goalId), TaskKey(t.taskId), StatusTag(t.status)], t.text)
  }

  function StatusMetadata(s: StatusEntry): Metadata {
    Metadata(STATUS_KEY, 0, Category.Status, [GoalKey(s.goalId)], s.text)
  }

  function GoalEntry(g: Goal, v: seq<real>, now: nat): Entry {
    NewEntry(GoalKey(g.goalId), v, GoalMetadata(g), PinnedNoTtl(), now)
  }

  function TaskEntry(t: Task, v: seq<real>, now: nat): Entry {
    NewEntry(TaskKey(t.taskId), v, TaskMetadata(t), TaskOptions(t.status), now)
  }

  function StatusEntryFor(s: StatusEntry, v: seq<real>, now: nat): Entry {
    NewEntry(STATUS_KEY, v, StatusMetadata(s), StoreOptions(false, Some(STATUS_TTL_SECONDS)), now)
  }

  /** What the manager writes for a goal is canonical and reads back as that goal. */
  lemma GoalRoundTrip(g: Goal, v: seq<real>, now: nat)
    ensures var e := GoalEntry(g, v, now); Canon(e.key, e) && GoalOf(e) == g && IsCurrent(e) == g.isCurrent
    ensures var e := GoalEntry(g, v, now);
            && e.key == "goal:" + g.goalId && e.metadata.category == Category.Goal && e.metadata.textSummary == g.text
            && e.metadata.tags == ["goal:" + g.goalId] + (if g.isCurrent then ["current"] else [])
            && e.pinned && e.expiresAt.None? && e.vector == v && e.byteSize == 4 * |v|
            && e.metadata.sourceRequestId == e.key && e.metadata.layerCaptured == 0
  {
    KeyOf(g.goalId);
    var e := GoalEntry(g, v, now);
    KeysApart(e.key);
    GoalReads(e.key, e);
    TagApart(e.key);
  }

  lemma TaskRoundTrip(t: Task, v: seq<real>, now: nat)
    ensures var e := TaskEntry(t, v, now); Canon(e.key, e) && TaskOf(e) == t && !IsCurrent(e)
    ensures var e := TaskEntry(t, v, now);
            && e.key == "task:" + t.taskId && e.metadata.category == Category.Task && e.metadata.textSummary == t.text
            && e.metadata.tags == ["goal:" + t.goalId, "task:" + t.taskId,
                                   match t.status case Active => "active" case Done => "done" case Blocked => "blocked"]
            && e.pinned == (t.status != Done) && e.expiresAt.None? && e.vector == v && e.byteSize == 4 * |v|
            && e.metadata.sourceRequestId == e.key && e.metadata.layerCaptured == 0
  {
    KeyOf(t.taskId);
    KeyOf(t.goalId);
    var e := TaskEntry(t, v, now);
    KeysApart(e.key);
    TaskReads(e.key, e);
  }

  lemma StatusRoundTrip(s: StatusEntry, v: seq<real>, now: nat)
    ensures var e := StatusEntryFor(s, v, now); Canon(e.key, e) && StatusOf(e) == s && !IsCurrent(e) && !e.Expired(now)
    ensures var e := StatusEntryFor(s, v, now);
            && e.key == "status:current" && e.metadata.category == Category.Status && e.metadata.textSummary == s.text
            && e.metadata.tags == ["goal:" + s.goalId]
            && !e.pinned && e.expiresAt == Some(now + 3600) && e.vector == v && e.byteSize == 4 * |v|
            && e.metadata.sourceRequestId == e.key && e.metadata.layerCaptured == 0
  {
    KeyOf(s.goalId);
    KeysApart(STATUS_KEY);
    var e := StatusEntryFor(s, v, now);
    assert STATUS_KEY[0] == 's';
    StatusReads(e.key, e);
  }

  // ---------------------------------------------------------------- storing on a board

  /** Some store call put `e` among the entries. */
  ghost predicate StoredAs(lim: Limits, before: Entries, after: Entries, e: Entry, now: nat) {
    exists r :: Outcome(lim, before, after, e, now, r)
  }

  /** Storing any entry in the manager's form keeps the board, provided it makes no second goal current. */
  lemma StoreKeepsBoard(lim: Limits, before: Entries, after: Entries, e: Entry, now: nat)
    requires StoredAs(lim, before, after, e, now) && Board(before) && Canon(e.key, e)
    requires IsCurrent(e) ==> forall k :: k in before && k != e.key ==> !IsCurrent(before[k])
    ensures Board(after)
  {
    forall k | k in after ensures (k == e.key && after[k] == e) || (k in before && after[k] == before[k])
                          ensures Canon(k, after[k]) {
      FromBefore(lim, before, after, e, now, k);
      if k in before {
        BoardAt(before, k);
      }
    }
    assert Unfold(0);
    assert BoardBody(before);
    SameOrOld(before, after, e);
  }

  lemma SameOrOld(before: Entries, after: Entries, e: Entry)
    requires BoardBody(before)
    requires forall k :: k in after ==> (k == e.key && after[k] == e) || (k in before && after[k] == before[k])
    requires IsCurrent(e) ==> forall k :: k in before && k != e.key ==> !IsCurrent(before[k])
    ensures forall j, k :: j in after && k in after && IsCurrent(after[j]) && IsCurrent(after[k]) ==> j == k
  {
  }

  lemma FromBefore(lim: Limits, before: Entries, after: Entries, e: Entry, now: nat, k: string)
    requires StoredAs(lim, before, after, e, now) && k in after
    ensures (k == e.key && after[k] == e) || (k in before && after[k] == before[k])
  {
    AtKey(lim, before, after, e, now);
    var r :| Outcome(lim, before, after, e, now, r);
    if k != e.key {
      OthersKept(lim, before, after, e, now, r, k);
    }
  }

  lemma OtherKept(lim: Limits, before: Entries, after: Entries, e: Entry, now: nat, k: string)
    requires StoredAs(lim, before, after, e, now) && k != e.key
    ensures k in after ==> k in before && after[k] == before[k]
    ensures k in before && before[k].pinned && before[k].expiresAt.None? ==> k in after
  {
    var r :| Outcome(lim, before, after, e, now, r);
    OthersKept(lim, before, after, e, now, r, k);
  }

  lemma AtKey(lim: Limits, before: Entries, after: Entries, e: Entry, now: nat)
    requires StoredAs(lim, before, after, e, now)
    ensures TooBig(lim, e.metadata.category, e.byteSize) ==> after == before
    ensures !TooBig(lim, e.metadata.category, e.byteSize) ==> (e.key in after <==> Welcome(lim, before, e, now))
    ensures !TooBig(lim, e.metadata.category, e.byteSize) && e.key in after ==> after[e.key] == e
  {
    var r :| Outcome(lim, before, after, e, now, r);
    RefusedIff(lim, before, after, e, now, r);
    assert Unfold(0);
    assert OutcomeBody(lim, before, after, e, now, r);
  }

  /** Whether the entry finds room beside the pinned live ones. */
  ghost predicate Welcome(lim: Limits, before: Entries, e: Entry, now: nat) {
    Fits(lim, HardOf(before - {e.key}, now), e.metadata.category, e.byteSize)
  }

  /** Goals after storing a goal entry: every other goal stays as it was. */
  lemma GoalsAfter(lim: Limits, before: Entries, after: Entries, e: Entry, now: nat)
    requires StoredAs(lim, before, after, e, now) && Board(before) && Canon(e.key, e) && e.metadata.category == Category.Goal
    ensures Goals(after) == if TooBig(lim, Category.Goal, e.byteSize) then Goals(before)
                            else if Welcome(lim, before, e, now) then Goals(before)[e.key := GoalOf(e)]
                            else Goals(before) - {e.key}
  {
    AtKey(lim, before, after, e, now);
    forall k | k != e.key ensures SameAt(Goals(before), Goals(after), k) {
      GoalKept(lim, before, after, e, now, k);
    }
    if !TooBig(lim, Category.Goal, e.byteSize) {
      if Welcome(lim, before, e, now) {
        OnePut(Goals(before), Goals(after), e.key, GoalOf(e));
      } else {
        OneGone(Goals(before), Goals(after), e.key);
      }
    }
  }

  predicate SameAt<V(==)>(a: map<string, V>, b: map<string, V>, k: string) {
    (k in a <==> k in b) && (k in a ==> a[k] == b[k])
  }

  lemma OnePut<V>(a: map<string, V>, b: map<string, V>, key: string, v: V)
    requires forall k :: k != key ==> SameAt(a, b, k)
    requires key in b && b[key] == v
    ensures b == a[key := v]
  {
    forall k ensures k in b <==> k in a[key := v] {
      assert k != key ==> SameAt(a, b, k);
    }
    forall k | k in b ensures b[k] == a[key := v][k] {
      assert k != key ==> SameAt(a, b, k);
    }
  }

  lemma OneGone<V>(a: map<string, V>, b: map<string, V>, key: string)
    requires forall k :: k != key ==> SameAt(a, b, k)
    requires key !in b
    ensures b == a - {key}
  {
    forall k ensures k in b <==> k in a - {key} {
      assert k != key ==> SameAt(a, b, k);
    }
    forall k | k in b ensures b[k] == (a - {key})[k] {
      assert k != key ==> SameAt(a, b, k);
    }
  }

  lemma GoalKept(lim: Limits, before: Entries, after: Entries, e: Entry, now: nat, k: string)
    requires StoredAs(lim, before, after, e, now) && Board(before) && k != e.key
    ensures SameAt(Goals(before), Goals(after), k)
  {
    OtherKept(lim, before, after, e, now, k);
    if k in before {
      BoardAt(before, k);
    }
  }

  /** Storing anything but a goal leaves every goal as it was. */
  lemma GoalsStay(lim: Limits, before: Entries, after: Entries, e: Entry, now: nat)
    requires StoredAs(lim, before, after, e, now) && Board(before) && Canon(e.key, e) && e.metadata.category != Category.Goal
    ensures Goals(after) == Goals(before)
  {
    forall k ensures k in Goals(after) <==> k in Goals(before)
             ensures k in Goals(after) ==> Goals(after)[k] == Goals(before)[k] {
      if k == e.key {
        if k in before {
          BoardAt(before, k);
        }
        if k in after {
          FromBefore(lim, before, after, e, now, k);
        }
      } else {
        GoalKept(lim, before, after, e, now, k);
      }
    }
  }

  /** The tasks besides `key`: unfinished ones stay, and none appears or changes. */
  ghost predicate TasksKept(before: map<string, Task>, after: map<string, Task>, key: string) {
    forall k :: k != key ==>
                  && (k in after ==> k in before && after[k] == before[k])
                  && (k in before && before[k].status != Done ==> k in after)
  }

  lemma TasksStay(lim: Limits, before: Entries, after: Entries, e: Entry, now: nat)
    requires StoredAs(lim, before, after, e, now) && Board(before) && Canon(e.key, e)
    ensures TasksKept(Tasks(before), Tasks(after), e.key)
  {
    forall k | k != e.key ensures k in Tasks(after) ==> k in Tasks(before) && Tasks(after)[k] == Tasks(before)[k]
                          ensures k in Tasks(before) && Tasks(before)[k].status != Done ==> k in Tasks(after) {
      OtherKept(lim, before, after, e, now, k);
      if k in Tasks(before) {
        BoardAt(before, k);
        TaskReads(k, before[k]);
      }
    }
  }

  /** A new or rewritten task is there afterwards exactly when its entry found room, or was refused as oversize over an old one. */
  lemma TaskAfter(lim: Limits, before: Entries, after: Entries, e: Entry, now: nat)
    requires StoredAs(lim, before, after, e, now) && Board(before) && Canon(e.key, e) && e.metadata.category == Category.Task
    ensures !TooBig(lim, Category.Task, e.byteSize) ==> (e.key in Tasks(after) <==> Welcome(lim, before, e, now))
    ensures !TooBig(lim, Category.Task, e.byteSize) && e.key in Tasks(after) ==> Tasks(after)[e.key] == TaskOf(e)
    ensures TooBig(lim, Category.Task, e.byteSize) ==> Tasks(after) == Tasks(before)
  {
    AtKey(lim, before, after, e, now);
  }

  // ---------------------------------------------------------------- changing a goal's current mark

  /** A goal entry rewritten with or without the current tag. */
  function Remarked(e: Entry, current: bool, now: nat): Entry {
    NewEntry(e.key, e.vector,
             e.metadata.(tags := if current then WithoutCurrent(e.metadata.tags) + [CURRENT] else WithoutCurrent(e.metadata.tags)),
             PinnedNoTtl(), now)
  }

  lemma RemarkedCanon(k: string, e: Entry, current: bool, now: nat)
    requires Canon(k, e) && e.metadata.category == Category.Goal
    ensures var m := Remarked(e, current, now);
            Canon(k, m) && IsCurrent(m) == current && GoalOf(m) == GoalOf(e).(isCurrent := current) && m.metadata.category == Category.Goal
  {
    GoalReads(k, e);
    GoalReads(k, Remarked(e, current, now));
    TagApart(k);
  }

  /** Every goal's current tag cleared. */
  function Cleared(entries: Entries, now: nat): Entries {
    map k | k in entries :: if IsCurrent(entries[k]) then Remarked(entries[k], false, now) else entries[k]
  }

  function Unmarked(goals: map<string, Goal>): map<string, Goal> {
    map k | k in goals :: goals[k].(isCurrent := false)
  }

  /** The same goals with exactly the one under `key` current. */
  function Marked(goals: map<string, Goal>, key: string): map<string, Goal> {
    map k | k in goals :: goals[k].(isCurrent := k == key)
  }

  lemma ClearedBoard(entries: Entries, now: nat)
    requires Board(entries)
    ensures Board(Cleared(entries, now))
    ensures Goals(Cleared(entries, now)) == Unmarked(Goals(entries)) && Tasks(Cleared(entries, now)) == Tasks(entries)
    ensures forall k :: k in Cleared(entries, now) ==> !IsCurrent(Cleared(entries, now)[k])
  {
    var next := Cleared(entries, now);
    forall k | k in next
      ensures Canon(k, next[k]) && !IsCurrent(next[k]) {
      ClearedAt(entries, now, k);
    }
    assert BoardBody(next);
    ClearedGoals(entries, now);
    ClearedNonGoals(entries, now);
    TasksFromNonGoals(next, entries);
  }

  lemma ClearedAt(entries: Entries, now: nat, k: string)
    requires Board(entries) && k in entries
    ensures var e := Cleared(entries, now)[k];
            && Canon(k, e) && !IsCurrent(e) && e.metadata.category == entries[k].metadata.category
            && (e.metadata.category == Category.Goal ==> GoalOf(e) == GoalOf(entries[k]).(isCurrent := false))
  {
    BoardAt(entries, k);
    if IsCurrent(entries[k]) {
      RemarkedCanon(k, entries[k], false, now);
    } else if k in Goals(entries) {
      GoalReads(k, entries[k]);
    }
  }

  lemma ClearedGoals(entries: Entries, now: nat)
    requires Board(entries)
    ensures Goals(Cleared(entries, now)) == Unmarked(Goals(entries))
  {
    forall k | k in entries
      ensures k in Goals(Cleared(entries, now)) <==> k in Goals(entries)
      ensures k in Goals(entries) ==> Goals(Cleared(entries, now))[k] == Unmarked(Goals(entries))[k] {
      ClearedAt(entries, now, k);
    }
  }

  /** The first n of the listed keys cleared. */
  function ClearedFirst(entries: Entries, keys: seq<string>, n: nat, now: nat): Entries
    requires n <= |keys| && forall i :: 0 <= i < |keys| ==> keys[i] in entries
    ensures ClearedFirst(entries, keys, n, now).Keys == entries.Keys
  {
    if n == 0 then entries
    else
      var m := ClearedFirst(entries, keys, n - 1, now);
      m[keys[n - 1] := Remarked(m[keys[n - 1]], false, now)]
  }

  lemma {:induction false} ClearedFirstAt(entries: Entries, keys: seq<string>, n: nat, now: nat, k: string)
    requires n <= |keys| && forall i :: 0 <= i < |keys| ==> keys[i] in entries
    requires forall i, j :: 0 <= i < j < |keys| ==> keys[i] != keys[j]
    requires k in entries
    ensures ClearedFirst(entries, keys, n, now)[k] == if k in keys[..n] then Remarked(entries[k], false, now) else entries[k]
  {
    if n > 0 {
      ClearedFirstAt(entries, keys, n - 1, now, k);
      assert keys[..n] == keys[..n - 1] + [keys[n - 1]];
    }
  }

  lemma {:induction false} ClearedAll(entries: Entries, keys: seq<string>, now: nat)
    requires forall i :: 0 <= i < |keys| ==> keys[i] in entries
    requires forall i, j :: 0 <= i < j < |keys| ==> keys[i] != keys[j]
    requires forall k :: k in entries ==> (k in keys <==> IsCurrent(entries[k]))
    ensures ClearedFirst(entries, keys, |keys|, now) == Cleared(entries, now)
  {
    assert keys[..|keys|] == keys;
    forall k | k in entries ensures ClearedFirst(entries, keys, |keys|, now)[k] == Cleared(entries, now)[k] {
      ClearedFirstAt(entries, keys, |keys|, now, k);
    }
  }

  /** Entries that are not goals. */
  function NonGoals(entries: Entries): Entries {
    map k | k in entries && entries[k].metadata.category != Category.Goal :: entries[k]
  }

  lemma TasksFromNonGoals(a: Entries, b: Entries)
    requires NonGoals(a) == NonGoals(b)
    ensures Tasks(a) == Tasks(b)
  {
    assert Tasks(a) == Tasks(NonGoals(a));
    assert Tasks(b) == Tasks(NonGoals(b));
  }

  /** Rewriting one goal entry in place changes that goal alone. */
  lemma GoalRewritten(entries: Entries, k: string, e: Entry)
    requires Board(entries) && k in Goals(entries) && Canon(k, e) && e.metadata.category == Category.Goal
    requires IsCurrent(e) ==> forall j :: j in entries && j != k ==> !IsCurrent(entries[j])
    ensures Board(entries[k := e])
    ensures Goals(entries[k := e]) == Goals(entries)[k := GoalOf(e)] && NonGoals(entries[k := e]) == NonGoals(entries)
  {
    BoardPut(entries, k, e);
    GoalsPut(entries, k, e);
    NonGoalsPut(entries, k, e);
  }

  lemma GoalsPut(entries: Entries, k: string, e: Entry)
    requires e.metadata.category == Category.Goal
    ensures Goals(entries[k := e]) == Goals(entries)[k := GoalOf(e)]
  {
  }

  lemma NonGoalsPut(entries: Entries, k: string, e: Entry)
    requires k in entries && entries[k].metadata.category == Category.Goal == e.metadata.category
    ensures NonGoals(entries[k := e]) == NonGoals(entries)
  {
  }

  lemma BoardPut(entries: Entries, k: string, e: Entry)
    requires Board(entries) && Canon(k, e)
    requires IsCurrent(e) ==> forall j :: j in entries && j != k ==> !IsCurrent(entries[j])
    ensures Board(entries[k := e])
  {
    var next := entries[k := e];
    forall j | j in next ensures Canon(j, next[j]) {
      if j in entries {
        BoardAt(entries, j);
      }
    }
    assert Unfold(0);
    assert BoardBody(entries);
    SameOrOld(entries, next, e);
  }

  /** Reading a goal changes no goal. */
  lemma GoalTouched(entries: Entries, k: string)
    requires Board(entries) && k in Goals(entries)
    ensures Board(entries[k := Touched(entries[k])])
    ensures Goals(entries[k := Touched(entries[k])]) == Goals(entries) && NonGoals(entries[k := Touched(entries[k])]) == NonGoals(entries)
  {
    BoardAt(entries, k);
    if IsCurrent(entries[k]) {
      OnlyCurrent(entries, k);
    }
    GoalRewritten(entries, k, Touched(entries[k]));
    assert Goals(entries)[k := GoalOf(Touched(entries[k]))] == Goals(entries);
  }

  lemma MarkedGoal(entries: Entries, k: string, now: nat)
    requires Board(entries) && k in Goals(entries) && forall j :: j in entries ==> !IsCurrent(entries[j])
    ensures var e := Remarked(entries[k], true, now);
            && e.metadata.tags == entries[k].metadata.tags + [CURRENT] && CURRENT !in entries[k].metadata.tags
            && Board(entries[k := e]) && NonGoals(entries[k := e]) == NonGoals(entries)
            && Goals(entries[k := e]) == Goals(entries)[k := Goals(entries)[k].(isCurrent := true)]
  {
    BoardAt(entries, k);
    GoalReads(k, entries[k]);
    RemarkedCanon(k, entries[k], true, now);
    GoalRewritten(entries, k, Remarked(entries[k], true, now));
  }

  lemma OnlyCurrent(entries: Entries, k: string)
    requires Board(entries) && k in entries && IsCurrent(entries[k])
    ensures forall j :: j in entries && j != k ==> !IsCurrent(entries[j])
  {
    assert Unfold(0);
    assert BoardBody(entries);
  }

  lemma ClearedNonGoals(entries: Entries, now: nat)
    requires Board(entries)
    ensures NonGoals(Cleared(entries, now)) == NonGoals(entries)
  {
    forall k | k in entries ensures Cleared(entries, now)[k].metadata.category == entries[k].metadata.category {
      ClearedAt(entries, now, k);
    }
  }

  /** Clearing every mark and then setting one leaves exactly that one goal current. */
  lemma MarkedAlone(goals: map<string, Goal>, key: string)
    requires key in goals
    ensures Unmarked(goals)[key := Unmarked(goals)[key].(isCurrent := true)] == Marked(goals, key)
    ensures forall k :: k in Marked(goals, key) ==> (Marked(goals, key)[k].isCurrent <==> k == key)
  {
  }

  // ---------------------------------------------------------------- listings

  /** Each goal once, in any order. */
  ghost predicate EnumeratesGoals(r: seq<Goal>, goals: map<string, Goal>) {
    && (forall i {:trigger r[i]} :: 0 <= i < |r| ==> GoalKey(r[i].goalId) in goals && goals[GoalKey(r[i].goalId)] == r[i])
    && (forall k :: k in goals ==> goals[k] in r)
    && (forall i, j :: 0 <= i < j < |r| ==> GoalKey(r[i].goalId) != GoalKey(r[j].goalId))
  }

  ghost predicate EnumeratesTasks(r: seq<Task>, tasks: map<string, Task>) {
    && (forall i {:trigger r[i]} :: 0 <= i < |r| ==> TaskKey(r[i].taskId) in tasks && tasks[TaskKey(r[i].taskId)] == r[i])
    && (forall k :: k in tasks ==> tasks[k] in r)
    && (forall i, j :: 0 <= i < j < |r| ==> TaskKey(r[i].taskId) != TaskKey(r[j].taskId))
  }

  function GoalsFrom(es: seq<Entry>): (r: seq<Goal>) {
    seq(|es|, i requires 0 <= i < |es| => GoalOf(es[i]))
  }

  function TasksFrom(es: seq<Entry>): (r: seq<Task>) {
    seq(|es|, i requires 0 <= i < |es| => TaskOf(es[i]))
  }

  lemma GoalsListed(es: seq<Entry>, entries: Entries, now: nat)
    requires Board(entries) && Lists(es, entries, KeysIn(entries, Category.Goal), now)
    ensures EnumeratesGoals(GoalsFrom(es), Goals(entries))
  {
    var r := GoalsFrom(es);
    forall i | 0 <= i < |r| ensures GoalKey(r[i].goalId) == es[i].key && es[i].key in Goals(entries) && Goals(entries)[es[i].key] == r[i] {
      var k := es[i].key;
      BoardAt(entries, k);
      GoalReads(k, entries[k]);
    }
    forall k | k in Goals(entries) ensures Goals(entries)[k] in r {
      BoardAt(entries, k);
      var i :| 0 <= i < |es| && es[i] == entries[k];
      assert r[i] == Goals(entries)[k];
    }
  }

  lemma TasksListed(es: seq<Entry>, entries: Entries, keys: set<string>, now: nat)
    requires Board(entries) && keys <= KeysIn(entries, Category.Task) && Lists(es, entries, keys, now)
    ensures EnumeratesTasks(TasksFrom(es), map k | k in Tasks(entries) && k in keys :: Tasks(entries)[k])
  {
    var r := TasksFrom(es);
    forall i | 0 <= i < |r| ensures TaskKey(r[i].taskId) == es[i].key && es[i].key in Tasks(entries) && Tasks(entries)[es[i].key] == r[i] {
      var k := es[i].key;
      BoardAt(entries, k);
      TaskReads(k, entries[k]);
    }
    forall k | k in Tasks(entries) && k in keys ensures Tasks(entries)[k] in r {
      BoardAt(entries, k);
      var i :| 0 <= i < |es| && es[i] == entries[k];
      assert r[i] == Tasks(entries)[k];
    }
  }

  /** A task carries the tag of exactly one goal, its own. */
  lemma TaggedWithGoal(entries: Entries, k: string, goalId: string)
    requires Board(entries) && k in Tasks(entries)
    ensures GoalKey(goalId) in entries[k].metadata.tags <==> Tasks(entries)[k].goalId == goalId
  {
    BoardAt(entries, k);
    TaskReads(k, entries[k]);
    var tags := entries[k].metadata.tags;
    KeyOf(goalId);
    TagApart(GoalKey(goalId));
    KeysApart(k);
    assert tags == [tags[0], k, tags[2]];
    assert GoalKey(Tasks(entries)[k].goalId)[5..] == Tasks(entries)[k].goalId;
  }

  /** The tasks of one goal. */
  function TasksOf(tasks: map<string, Task>, goalId: string): map<string, Task> {
    map k | k in tasks && tasks[k].goalId == goalId :: tasks[k]
  }

  /** The saved state says what the entries held at `then`. */
  ghost predicate Describes(s: PersistedState, entries: Entries, when: nat) {
    && EnumeratesGoals(s.goals, Goals(entries))
    && EnumeratesTasks(s.tasks, Tasks(entries))
    && s.status == LiveStatus(entries, when)
  }

  // ---------------------------------------------------------------- restoring

  function Encode(answer: Option<seq<real>>, dModel: nat): seq<real> {
    if answer.Some? && answer.value != [] then answer.value else seq(dModel, i => 0.0)
  }

  /** The encoder's answer where it gives one, and zeros of the model's width otherwise. */
  lemma EncodeIs(answer: Option<seq<real>>, dModel: nat)
    ensures var v := Encode(answer, dModel);
            if answer.Some? && |answer.value| > 0 then v == answer.value
            else |v| == dModel && forall i :: 0 <= i < dModel ==> v[i] == 0.0
  {
  }

  function Count(s: PersistedState): nat {
    |s.goals| + |s.tasks| + if s.status.Some? then 1 else 0
  }

  /** The i-th entry a restore writes, with the encoder's i-th answer. */
  function Item(s: PersistedState, answers: nat -> Option<seq<real>>, dModel: nat, now: nat, i: nat): Entry
    requires i < Count(s)
  {
    var v := Encode(answers(i), dModel);
    if i < |s.goals| then GoalEntry(s.goals[i], v, now)
    else if i < |s.goals| + |s.tasks| then TaskEntry(s.tasks[i - |s.goals|], v, now)
    else StatusEntryFor(s.status.value, v, now)
  }

  function Items(s: PersistedState, answers: nat -> Option<seq<real>>, dModel: nat, now: nat): (items: seq<Entry>)
    ensures |items| == Count(s)
    ensures forall i :: 0 <= i < |items| ==> items[i] == Item(s, answers, dModel, now, i)
  {
    seq(Count(s), i requires 0 <= i < Count(s) => Item(s, answers, dModel, now, i))
  }

  lemma TaskItemAt(s: PersistedState, answers: nat -> Option<seq<real>>, dModel: nat, now: nat, i: nat)
    requires i < |s.tasks|
    ensures |Items(s, answers, dModel, now)| == Count(s) > |s.goals| + i
    ensures Items(s, answers, dModel, now)[|s.goals| + i] == TaskEntry(s.tasks[i], Encode(answers(|s.goals| + i), dModel), now)
  {
  }

  /** Storing the first n items one after the other may lead from `before` to `after`. */
  ghost predicate Chain(lim: Limits, items: seq<Entry>, now: nat, before: Entries, n: nat, after: Entries)
    requires n <= |items|
  {
    if n == 0 then after == before
    else exists mid :: Chain(lim, items, now, before, n - 1, mid) && Within(lim, mid) && StoredAs(lim, mid, after, items[n - 1], now)
  }

  /** Chain over a saved state's items, folded. */
  ghost predicate SoFar(lim: Limits, s: PersistedState, answers: nat -> Option<seq<real>>, dModel: nat, now: nat, before: Entries,
                        n: nat, after: Entries) {
    forall u :: Unfold(u) ==> n <= Count(s) && Chain(lim, Items(s, answers, dModel, now), now, before, n, after)
  }

  lemma SoFarStart(lim: Limits, s: PersistedState, answers: nat -> Option<seq<real>>, dModel: nat, now: nat, before: Entries)
    ensures SoFar(lim, s, answers, dModel, now, before, 0, before)
  {
  }

  lemma SoFarStep(lim: Limits, s: PersistedState, answers: nat -> Option<seq<real>>, dModel: nat, now: nat, before: Entries,
                  mid: Entries, n: nat, after: Entries)
    requires SoFar(lim, s, answers, dModel, now, before, n, mid) && Within(lim, mid)
    requires n < Count(s) && StoredAs(lim, mid, after, Item(s, answers, dModel, now, n), now)
    ensures SoFar(lim, s, answers, dModel, now, before, n + 1, after)
  {
    assert Unfold(0);
    assert StoredAs(lim, mid, after, Items(s, answers, dModel, now)[n], now);
  }

  lemma SoFarGoal(lim: Limits, s: PersistedState, answers: nat -> Option<seq<real>>, dModel: nat, now: nat, before: Entries,
                  mid: Entries, n: nat, after: Entries)
    requires SoFar(lim, s, answers, dModel, now, before, n, mid) && Within(lim, mid) && n < |s.goals|
    requires StoredAs(lim, mid, after, GoalEntry(s.goals[n], Encode(answers(n), dModel), now), now)
    ensures SoFar(lim, s, answers, dModel, now, before, n + 1, after)
  {
    SoFarStep(lim, s, answers, dModel, now, before, mid, n, after);
  }

  lemma SoFarTask(lim: Limits, s: PersistedState, answers: nat -> Option<seq<real>>, dModel: nat, now: nat, before: Entries,
                  mid: Entries, n: nat, after: Entries)
    requires SoFar(lim, s, answers, dModel, now, before, n, mid) && Within(lim, mid) && |s.goals| <= n < |s.goals| + |s.tasks|
    requires StoredAs(lim, mid, after, TaskEntry(s.tasks[n - |s.goals|], Encode(answers(n), dModel), now), now)
    ensures SoFar(lim, s, answers, dModel, now, before, n + 1, after)
  {
    SoFarStep(lim, s, answers, dModel, now, before, mid, n, after);
  }

  lemma SoFarStatus(lim: Limits, s: PersistedState, answers: nat -> Option<seq<real>>, dModel: nat, now: nat, before: Entries,
                    mid: Entries, n: nat, after: Entries)
    requires SoFar(lim, s, answers, dModel, now, before, n, mid) && Within(lim, mid) && n == |s.goals| + |s.tasks| && s.status.Some?
    requires StoredAs(lim, mid, after, StatusEntryFor(s.status.value, Encode(answers(n), dModel), now), now)
    ensures SoFar(lim, s, answers, dModel, now, before, n + 1, after)
  {
    SoFarStep(lim, s, answers, dModel, now, before, mid, n, after);
  }

  lemma {:induction false} SoFarAll(lim: Limits, s: PersistedState, answers: nat -> Option<seq<real>>, dModel: nat, now: nat, before: Entries,
                 n: nat, after: Entries)
    requires SoFar(lim, s, answers, dModel, now, before, n, after) && n == Count(s)
    ensures Chain(lim, Items(s, answers, dModel, now), now, before, Count(s), after)
  {
    assert Unfold(0);
  }

  /** The first n items written over `base`, nothing lost. */
  function Overlay(base: Entries, items: seq<Entry>, n: nat): Entries
    requires n <= |items|
  {
    if n == 0 then base else Overlay(base, items, n - 1)[items[n - 1].key := items[n - 1]]
  }

  ghost predicate DistinctKeys(items: seq<Entry>) {
    forall i, j :: 0 <= i < j < |items| ==> items[i].key != items[j].key
  }

  lemma {:induction false} OverlayItem(base: Entries, items: seq<Entry>, n: nat, i: nat)
    requires i < n <= |items| && DistinctKeys(items)
    ensures items[i].key in Overlay(base, items, n) && Overlay(base, items, n)[items[i].key] == items[i]
  {
    if i < n - 1 {
      OverlayItem(base, items, n - 1, i);
    }
  }

  lemma {:induction false} OverlayElse(base: Entries, items: seq<Entry>, n: nat, k: string)
    requires n <= |items| && forall i :: 0 <= i < n ==> items[i].key != k
    ensures k in Overlay(base, items, n) <==> k in base
    ensures k in base ==> Overlay(base, items, n)[k] == base[k]
  {
    if n > 0 {
      OverlayElse(base, items, n - 1, k);
    }
  }

  /** Whatever a restore into an empty store keeps is as it was saved. */
  lemma {:induction false} ChainSub(lim: Limits, items: seq<Entry>, now: nat, n: nat, after: Entries)
    requires n <= |items| && DistinctKeys(items) && Chain(lim, items, now, map[], n, after)
    ensures Sub(after, Overlay(map[], items, n))
  {
    if n > 0 {
      var mid :| Chain(lim, items, now, map[], n - 1, mid) && Within(lim, mid) && StoredAs(lim, mid, after, items[n - 1], now);
      ChainSub(lim, items, now, n - 1, mid);
      OverlayElse(map[], items, n - 1, items[n - 1].key);
      forall k | k in after ensures k in Overlay(map[], items, n) && after[k] == Overlay(map[], items, n)[k] {
        FromBefore(lim, mid, after, items[n - 1], now, k);
      }
    }
  }

  lemma OverlayGrows(items: seq<Entry>, n: nat)
    requires 0 < n <= |items| && DistinctKeys(items)
    ensures items[n - 1].key !in Overlay(map[], items, n - 1)
    ensures Sub(Overlay(map[], items, n - 1), Overlay(map[], items, n))
  {
    OverlayElse(map[], items, n - 1, items[n - 1].key);
  }

  lemma RoomForNext(lim: Limits, entries: Entries, e: Entry)
    requires e.key !in entries && Within(lim, entries[e.key := e])
    ensures Fits(lim, entries - {e.key}, e.metadata.category, e.byteSize)
  {
    assert Unfold(0);
    assert entries - {e.key} == entries;
    BytesPut(entries, e.key, e);
    BytesInPut(entries, e.key, e, e.metadata.category);
    assert BytesIn(entries[e.key := e], e.metadata.category) <= lim.CategoryBudget(e.metadata.category);
  }

  /** If everything together meets the budgets, a restore into an empty store loses nothing. */
  lemma {:induction false} ChainFits(lim: Limits, items: seq<Entry>, now: nat, n: nat, after: Entries)
    requires n <= |items| && DistinctKeys(items) && Chain(lim, items, now, map[], n, after)
    requires Within(lim, Overlay(map[], items, n))
    ensures after == Overlay(map[], items, n)
  {
    if n > 0 {
      var e := items[n - 1];
      var mid :| Chain(lim, items, now, map[], n - 1, mid) && Within(lim, mid) && StoredAs(lim, mid, after, e, now);
      OverlayGrows(items, n);
      WithinTake(lim, Overlay(map[], items, n - 1), Overlay(map[], items, n));
      ChainFits(lim, items, now, n - 1, mid);
      RoomForNext(lim, mid, e);
      var r :| Outcome(lim, mid, after, e, now, r);
      NothingEvicted(lim, mid, after, e, now, r);
    }
  }

  ghost predicate InPlace(entries: Entries, e: Entry) {
    e.key in entries && entries[e.key].metadata.category == e.metadata.category && e.byteSize <= entries[e.key].byteSize
  }

  /** Rewriting entries in place with no larger vectors loses nothing, however full the store is. */
  lemma {:induction false} ChainInPlace(lim: Limits, items: seq<Entry>, now: nat, before: Entries, n: nat, after: Entries)
    requires n <= |items| && DistinctKeys(items) && Chain(lim, items, now, before, n, after)
    requires forall i {:trigger items[i]} :: 0 <= i < n ==> InPlace(before, items[i])
    ensures after == Overlay(before, items, n)
  {
    if n > 0 {
      var e := items[n - 1];
      var mid :| Chain(lim, items, now, before, n - 1, mid) && Within(lim, mid) && StoredAs(lim, mid, after, e, now);
      ChainInPlace(lim, items, now, before, n - 1, mid);
      OverlayElse(before, items, n - 1, e.key);
      var r :| Outcome(lim, mid, after, e, now, r);
      assert InPlace(before, e);
      ReplaceNeverEvicts(lim, mid, after, e, now, r);
    }
  }

  lemma ItemCanon(s: PersistedState, answers: nat -> Option<seq<real>>, dModel: nat, now: nat, i: nat)
    requires i < Count(s)
    ensures var e := Item(s, answers, dModel, now, i);
            && Canon(e.key, e)
            && (i < |s.goals| ==> e.key == GoalKey(s.goals[i].goalId) && GoalOf(e) == s.goals[i] && IsCurrent(e) == s.goals[i].isCurrent)
            && (|s.goals| <= i < |s.goals| + |s.tasks| ==>
                  e.key == TaskKey(s.tasks[i - |s.goals|].taskId) && TaskOf(e) == s.tasks[i - |s.goals|] && !IsCurrent(e))
            && (|s.goals| + |s.tasks| <= i ==> e.key == STATUS_KEY && StatusOf(e) == s.status.value && !e.Expired(now) && !IsCurrent(e))
  {
    var v := Encode(answers(i), dModel);
    if i < |s.goals| {
      GoalRoundTrip(s.goals[i], v, now);
    } else if i < |s.goals| + |s.tasks| {
      TaskRoundTrip(s.tasks[i - |s.goals|], v, now);
    } else {
      StatusRoundTrip(s.status.value, v, now);
    }
  }

  lemma ItemsDistinct(s: PersistedState, entries: Entries, when: nat, answers: nat -> Option<seq<real>>, dModel: nat, now: nat)
    requires Describes(s, entries, when)
    ensures DistinctKeys(Items(s, answers, dModel, now))
  {
    var items := Items(s, answers, dModel, now);
    forall i, j | 0 <= i < j < |items| ensures items[i].key != items[j].key {
      ItemCanon(s, answers, dModel, now, i);
      ItemCanon(s, answers, dModel, now, j);
      KeysApart(items[i].key);
      KeysApart(items[j].key);
    }
  }

  lemma GoalHasItem(s: PersistedState, board: Entries, when: nat, answers: nat -> Option<seq<real>>, dModel: nat, now: nat, k: string)
    requires Board(board) && Describes(s, board, when) && k in Goals(board)
    ensures exists i :: 0 <= i < Count(s) && Items(s, answers, dModel, now)[i].key == k
  {
    var i :| 0 <= i < |s.goals| && s.goals[i] == Goals(board)[k];
    BoardAt(board, k);
    GoalReads(k, board[k]);
    ItemCanon(s, answers, dModel, now, i);
    assert Items(s, answers, dModel, now)[i].key == k;
  }

  lemma TaskHasItem(s: PersistedState, board: Entries, when: nat, answers: nat -> Option<seq<real>>, dModel: nat, now: nat, k: string)
    requires Board(board) && Describes(s, board, when) && k in Tasks(board)
    ensures exists i :: 0 <= i < Count(s) && Items(s, answers, dModel, now)[i].key == k
  {
    var i :| 0 <= i < |s.tasks| && s.tasks[i] == Tasks(board)[k];
    BoardAt(board, k);
    TaskReads(k, board[k]);
    TaskItemAt(s, answers, dModel, now, i);
    var n := |s.goals| + i;
    assert Items(s, answers, dModel, now)[n].key == k;
  }

  /** Every goal, and nothing else under the goals' keys, is among the items. */
  lemma {:induction false} GoalItems(s: PersistedState, board: Entries, when: nat, answers: nat -> Option<seq<real>>, dModel: nat, now: nat, base: Entries)
    requires Board(board) && Describes(s, board, when) && base in {map[], board}
    ensures Goals(Overlay(base, Items(s, answers, dModel, now), Count(s))) == Goals(board)
  {
    var items := Items(s, answers, dModel, now);
    var all := Overlay(base, items, Count(s));
    ItemsDistinct(s, board, when, answers, dModel, now);
    forall k ensures SameAt(Goals(board), Goals(all), k) {
      if k in Goals(board) {
        GoalHasItem(s, board, when, answers, dModel, now, k);
      }
      if i :| 0 <= i < |items| && items[i].key == k {
        ItemCanon(s, answers, dModel, now, i);
        OverlayItem(base, items, |items|, i);
        KeysApart(k);
        if k in board {
          BoardAt(board, k);
        }
        if i < |s.goals| {
          assert s.goals[i] == Goals(board)[k];
        }
      } else {
        OverlayElse(base, items, |items|, k);
      }
    }
    SameAll(Goals(board), Goals(all));
  }

  lemma {:induction false} TaskItems(s: PersistedState, board: Entries, when: nat, answers: nat -> Option<seq<real>>, dModel: nat, now: nat, base: Entries)
    requires Board(board) && Describes(s, board, when) && base in {map[], board}
    ensures Tasks(Overlay(base, Items(s, answers, dModel, now), Count(s))) == Tasks(board)
  {
    var items := Items(s, answers, dModel, now);
    var all := Overlay(base, items, Count(s));
    ItemsDistinct(s, board, when, answers, dModel, now);
    forall k ensures SameAt(Tasks(board), Tasks(all), k) {
      if k in Tasks(board) {
        TaskHasItem(s, board, when, answers, dModel, now, k);
      }
      if i :| 0 <= i < |items| && items[i].key == k {
        ItemCanon(s, answers, dModel, now, i);
        OverlayItem(base, items, |items|, i);
        KeysApart(k);
        if k in board {
          BoardAt(board, k);
        }
        if |s.goals| <= i < |s.goals| + |s.tasks| {
          assert s.tasks[i - |s.goals|] == Tasks(board)[k];
        }
      } else {
        OverlayElse(base, items, |items|, k);
      }
    }
    SameAll(Tasks(board), Tasks(all));
  }

  lemma {:induction false} StatusItem(s: PersistedState, board: Entries, when: nat, answers: nat -> Option<seq<real>>, dModel: nat, now: nat, base: Entries)
    requires Board(board) && Describes(s, board, when) && base in {map[], board} && when <= now
    ensures LiveStatus(Overlay(base, Items(s, answers, dModel, now), Count(s)), now) == LiveStatus(board, when)
  {
    var items := Items(s, answers, dModel, now);
    ItemsDistinct(s, board, when, answers, dModel, now);
    if s.status.Some? {
      var last := Count(s) - 1;
      ItemCanon(s, answers, dModel, now, last);
      OverlayItem(base, items, |items|, last);
    } else {
      forall i | 0 <= i < |items| ensures items[i].key != STATUS_KEY {
        ItemCanon(s, answers, dModel, now, i);
        KeysApart(items[i].key);
      }
      OverlayElse(base, items, |items|, STATUS_KEY);
    }
  }

  lemma SameAll<V>(a: map<string, V>, b: map<string, V>)
    requires forall k :: SameAt(a, b, k)
    ensures a == b
  {
    forall k ensures k in a <==> k in b {
      assert SameAt(a, b, k);
    }
    forall k | k in a ensures a[k] == b[k] {
      assert SameAt(a, b, k);
    }
  }

  /** The same goals, tasks and status are visible in both. */
  ghost predicate SameBoard(a: Entries, whenA: nat, b: Entries, whenB: nat) {
    Goals(a) == Goals(b) && Tasks(a) == Tasks(b) && LiveStatus(a, whenA) == LiveStatus(b, whenB)
  }

  lemma {:induction false} OverlaySame(s: PersistedState, board: Entries, when: nat, answers: nat -> Option<seq<real>>, dModel: nat, now: nat, base: Entries)
    requires Board(board) && Describes(s, board, when) && base in {map[], board} && when <= now
    ensures SameBoard(Overlay(base, Items(s, answers, dModel, now), Count(s)), now, board, when)
  {
    GoalItems(s, board, when, answers, dModel, now, base);
    TaskItems(s, board, when, answers, dModel, now, base);
    StatusItem(s, board, when, answers, dModel, now, base);
  }

  /**
   Restoring a saved state into an empty store reproduces the same goals, tasks and status exactly
   when all its entries together meet the store's budgets.
   */
  lemma {:induction false} RestoreExactIff(lim: Limits, s: PersistedState, board: Entries, when: nat, answers: nat -> Option<seq<real>>, dModel: nat,
                        now: nat, after: Entries)
    requires Board(board) && Describes(s, board, when) && when <= now
    requires Chain(lim, Items(s, answers, dModel, now), now, map[], Count(s), after) && Within(lim, after)
    ensures SameBoard(after, now, board, when) <==> Within(lim, Overlay(map[], Items(s, answers, dModel, now), Count(s)))
  {
    hide Chain, Overlay, Describes, Board, Within, SameBoard, Sub, DistinctKeys;
    var items := Items(s, answers, dModel, now);
    var all := Overlay(map[], items, Count(s));
    ItemsDistinct(s, board, when, answers, dModel, now);
    ChainSub(lim, items, now, Count(s), after);
    OverlaySame(s, board, when, answers, dModel, now, map[]);
    if Within(lim, all) {
      ChainFits(lim, items, now, Count(s), after);
    }
    if SameBoard(after, now, board, when) {
      SameViewsAll(s, board, when, answers, dModel, now, after, all);
      SubAll(after, all);
    }
  }

  lemma SubAll(a: Entries, b: Entries)
    requires Sub(a, b) && b.Keys <= a.Keys
    ensures a == b
  {
  }

  lemma SameViewsAll(s: PersistedState, board: Entries, when: nat, answers: nat -> Option<seq<real>>, dModel: nat, now: nat,
                     after: Entries, all: Entries)
    requires Describes(s, board, when) && SameBoard(after, now, board, when)
    requires all == Overlay(map[], Items(s, answers, dModel, now), Count(s))
    ensures all.Keys <= after.Keys
  {
    var items := Items(s, answers, dModel, now);
    forall k | k in all ensures k in after {
      if forall i :: 0 <= i < |items| ==> items[i].key != k {
        OverlayElse(map[], items, |items|, k);
      }
      var i :| 0 <= i < |items| && items[i].key == k;
      ItemCanon(s, answers, dModel, now, i);
      if i < |s.goals| {
        assert s.goals[i] == s.goals[i];
        assert k in Goals(after);
      } else if i < |s.goals| + |s.tasks| {
        assert s.tasks[i - |s.goals|] == s.tasks[i - |s.goals|];
        assert k in Tasks(after);
      }
    }
  }

  /** A restore into an empty store never makes two goals current, fit or not. */
  lemma {:induction false} RestoreKeepsBoard(lim: Limits, s: PersistedState, board: Entries, when: nat, answers: nat -> Option<seq<real>>, dModel: nat,
                          now: nat, after: Entries)
    requires Board(board) && Describes(s, board, when)
    requires Chain(lim, Items(s, answers, dModel, now), now, map[], Count(s), after)
    ensures Board(after)
  {
    var items := Items(s, answers, dModel, now);
    ItemsDistinct(s, board, when, answers, dModel, now);
    ChainSub(lim, items, now, Count(s), after);
    forall k | k in after
      ensures Canon(k, after[k])
      ensures IsCurrent(after[k]) ==> k in board && IsCurrent(board[k]) {
      if forall i :: 0 <= i < |items| ==> items[i].key != k {
        OverlayElse(map[], items, |items|, k);
      }
      var i :| 0 <= i < |items| && items[i].key == k;
      OverlayItem(map[], items, |items|, i);
      ItemCanon(s, answers, dModel, now, i);
      if i < |s.goals| {
        assert s.goals[i] == Goals(board)[k];
      }
    }
    assert Unfold(0);
    assert BoardBody(board);
  }

  /**
   Re-encoding every entry in place with vectors no larger than before loses nothing, whatever else
   the store holds.
   */
  lemma {:induction false} ReencodeKeepsBoard(lim: Limits, s: PersistedState, before: Entries, answers: nat -> Option<seq<real>>, dModel: nat,
                           now: nat, after: Entries)
    requires Board(before) && Describes(s, before, now)
    requires Chain(lim, Items(s, answers, dModel, now), now, before, Count(s), after)
    requires forall i :: 0 <= i < Count(s) ==> var e := Item(s, answers, dModel, now, i); e.key in before && e.byteSize <= before[e.key].byteSize
    ensures SameBoard(after, now, before, now)
    ensures after.Keys == before.Keys
  {
    var items := Items(s, answers, dModel, now);
    ItemsDistinct(s, before, now, answers, dModel, now);
    forall i | 0 <= i < |items| ensures InPlace(before, items[i]) {
      ItemCanon(s, answers, dModel, now, i);
      BoardAt(before, items[i].key);
      KeysApart(items[i].key);
    }
    ChainInPlace(lim, items, now, before, Count(s), after);
    OverlaySame(s, before, now, answers, dModel, now, before);
    forall k ensures k in after <==> k in before {
      if i :| 0 <= i < |items| && items[i].key == k {
        OverlayItem(before, items, |items|, i);
      } else {
        OverlayElse(before, items, |items|, k);
      }
    }
  }

  // ---------------------------------------------------------------- changing a task's status

  /** A task entry rewritten with another status; finishing it takes its pin away. */
  function Retagged(e: Entry, st: TaskStatus, now: nat): Entry {
    NewEntry(e.key, e.vector, e.metadata.(tags := WithoutStatus(e.metadata.tags) + [StatusTag(st)]), TaskOptions(st), now)
  }

  lemma RetaggedCanon(k: string, e: Entry, st: TaskStatus, now: nat)
    requires Canon(k, e) && e.metadata.category == Category.Task
    ensures var m := Retagged(e, st, now);
            Canon(k, m) && m.metadata.category == Category.Task && TaskOf(m) == TaskOf(e).(status := st) && !IsCurrent(m)
  {
    TaskReads(k, e);
    TaskReads(k, Retagged(e, st, now));
  }

  lemma TasksPut(entries: Entries, k: string, e: Entry)
    requires e.metadata.category == Category.Task
    ensures Tasks(entries[k := e]) == Tasks(entries)[k := TaskOf(e)]
  {
  }

  lemma TaskRewritten(entries: Entries, k: string, e: Entry)
    requires Board(entries) && k in Tasks(entries) && Canon(k, e) && e.metadata.category == Category.Task
    ensures Board(entries[k := e])
    ensures Tasks(entries[k := e]) == Tasks(entries)[k := TaskOf(e)] && Goals(entries[k := e]) == Goals(entries)
  {
    BoardPut(entries, k, e);
    TasksPut(entries, k, e);
  }

  // ---------------------------------------------------------------- the manager

  class Manager {
    const store: Store
    const dModel: nat

    ghost predicate Valid()
      reads this, store
    {
      store.Valid() && Board(store.entries)
    }

    constructor (store: Store, dModel: nat)
      requires store.Valid() && store.entries == map[]
      ensures Valid() && this.store == store && this.dModel == dModel
    {
      this.store, this.dModel := store, dModel;
    }

    /** Stores an entry where one of the category with the same vector was, in place. */
    method Rewrite(key: string, vector: seq<real>, metadata: Metadata, options: StoreOptions, now: nat)
      requires store.Valid()
      requires key in store.entries && store.entries[key].metadata.category == metadata.category
      requires 4 * |vector| <= store.entries[key].byteSize
      modifies store
      ensures store.Valid() && store.entries == old(store.entries)[key := NewEntry(key, vector, metadata, options, now)]
    {
      var r := store.StoreWithOptions(key, vector, metadata, options, now);
      ReplaceNeverEvicts(store.limits, old(store.entries), store.entries, NewEntry(key, vector, metadata, options, now), now, r);
    }

    /** Takes the current tag off one goal. */
    method ClearOne(key: string, now: nat)
      requires Valid() && key in Goals(store.entries)
      modifies store
      ensures Valid() && store.entries == old(store.entries)[key := Remarked(old(store.entries)[key], false, now)]
    {
      hide CanonTask, CanonStatus, Tasks, NonGoals;
      BoardAt(store.entries, key);
      var e := store.Get(key, now);
      WellFormedAt(old(store.S()), key);
      WellFormedAt(store.S(), key);
      GoalReads(key, old(store.entries)[key]);
      GoalTouched(old(store.entries), key);
      RemarkedCanon(key, e.value, false, now);
      Rewrite(key, e.value.vector, e.value.metadata.(tags := WithoutCurrent(e.value.metadata.tags)), PinnedNoTtl(), now);
      BoardPut(old(store.entries), key, Remarked(old(store.entries)[key], false, now));
    }

    /** Takes the current tag off every goal that has it. */
    method ClearCurrent(now: nat)
      requires Valid()
      modifies store
      ensures Valid() && store.entries == Cleared(old(store.entries), now)
    {
      var es := store.QueryByCategory(Category.Goal, now);
      var toClear := CurrentKeys(es, store.entries, now);
      var i := 0;
      while i < |toClear|
        invariant 0 <= i <= |toClear|
        invariant Valid() && store.entries == ClearedFirst(old(store.entries), toClear, i, now)
      {
        ClearedFirstAt(old(store.entries), toClear, i, now, toClear[i]);
        ClearOne(toClear[i], now);
        i := i + 1;
      }
      ClearedAll(old(store.entries), toClear, now);
    }

    /** Adds a goal and makes it the current one. */
    method SetGoal(text: string, id: string, answer: Option<seq<real>>, now: nat) returns (goalId: string)
      requires Valid()
      modifies store
      ensures Valid() && goalId == id
      ensures var e := GoalEntry(Goal.Goal(id, text, true), Encode(answer, dModel), now);
              var before := Cleared(old(store.entries), now);
              && Goals(store.entries) ==
                 (if TooBig(store.limits, Category.Goal, e.byteSize) then Unmarked(Goals(old(store.entries)))
                  else if Welcome(store.limits, before, e, now) then Unmarked(Goals(old(store.entries)))[GoalKey(id) := Goal.Goal(id, text, true)]
                  else Unmarked(Goals(old(store.entries))) - {GoalKey(id)})
              && TasksKept(Tasks(old(store.entries)), Tasks(store.entries), GoalKey(id))
    {
      ClearCurrent(now);
      ghost var before := store.entries;
      ClearedBoard(old(store.entries), now);
      var g := Goal.Goal(id, text, true);
      var v := Encode(answer, dModel);
      var r := store.StoreWithOptions(GoalKey(id), v, GoalMetadata(g), PinnedNoTtl(), now);
      StoredGoal(store.limits, before, store.entries, g, v, now, r);
      goalId := id;
    }

    /** Makes an existing goal the current one. */
    method SetCurrent(goalId: string, now: nat) returns (ok: bool)
      requires Valid()
      modifies store
      ensures Valid()
      ensures ok == (GoalKey(goalId) in Goals(old(store.entries)))
      ensures !ok ==> store.entries == old(store.entries)
      ensures ok ==> Goals(store.entries) == Marked(Goals(old(store.entries)), GoalKey(goalId))
      ensures ok ==> NonGoals(store.entries) == NonGoals(old(store.entries))
    {
      var goalKey := GoalKey(goalId);
      KeyOf(goalId);
      if goalKey in store.entries {
        BoardAt(store.entries, goalKey);
      }
      var target := store.Get(goalKey, now);
      if target.None? {
        return false;
      }
      GoalTouched(old(store.entries), goalKey);
      ghost var read := store.entries;
      ClearCurrent(now);
      ClearedBoard(read, now);
      ClearedNonGoals(read, now);
      ok := MarkOne(goalKey, now);
      MarkedAlone(Goals(old(store.entries)), goalKey);
    }

    /** Puts the current tag on a goal while no goal has it. */
    method MarkOne(goalKey: string, now: nat) returns (ok: bool)
      requires Valid() && goalKey in Goals(store.entries)
      requires forall k :: k in store.entries ==> !IsCurrent(store.entries[k])
      modifies store
      ensures Valid() && ok
      ensures Goals(store.entries) == Goals(old(store.entries))[goalKey := Goals(old(store.entries))[goalKey].(isCurrent := true)]
      ensures NonGoals(store.entries) == NonGoals(old(store.entries))
    {
      BoardAt(store.entries, goalKey);
      var e := store.Get(goalKey, now);
      if e.Some? {
        WellFormedAt(store.S(), goalKey);
        MarkedGoal(old(store.entries), goalKey, now);
        var tags := e.value.metadata.tags;
        if CURRENT !in tags {
          tags := tags + [CURRENT];
        }
        Rewrite(goalKey, e.value.vector, e.value.metadata.(tags := tags), PinnedNoTtl(), now);
        assert store.entries == old(store.entries)[goalKey := Remarked(old(store.entries)[goalKey], true, now)];
        ok := true;
      } else {
        ok := false;
      }
    }

    /** Every goal, once. */
    method ListGoals(now: nat) returns (r: seq<Goal>)
      requires Valid()
      ensures EnumeratesGoals(r, Goals(store.entries))
    {
      var es := store.QueryByCategory(Category.Goal, now);
      GoalsListed(es, store.entries, now);
      r := GoalsFrom(es);
    }

    /** The one current goal, if any goal is current. */
    method CurrentGoal(now: nat) returns (r: Option<Goal>)
      requires Valid()
      ensures r.None? <==> forall k :: k in Goals(store.entries) ==> !Goals(store.entries)[k].isCurrent
      ensures r.Some? ==> GoalKey(r.value.goalId) in Goals(store.entries) && Goals(store.entries)[GoalKey(r.value.goalId)] == r.value
      ensures forall k :: k in Goals(store.entries) && Goals(store.entries)[k].isCurrent ==> r == Some(Goals(store.entries)[k])
    {
      var es := store.QueryByCategory(Category.Goal, now);
      GoalsListed(es, store.entries, now);
      OneMarked(store.entries);
      var i := FirstCurrent(es);
      if i < |es| {
        assert GoalsFrom(es)[i] == GoalOf(es[i]);
        r := Some(Goal.Goal(OrEmpty(ExtractId(es[i].metadata.tags, "goal:")), es[i].metadata.textSummary, true));
      } else {
        assert forall g :: g in GoalsFrom(es) ==> !g.isCurrent;
        r := None;
      }
    }

    /** Adds an active, pinned task. */
    method AddTask(goalId: string, text: string, id: string, answer: Option<seq<real>>, now: nat) returns (taskId: string)
      requires Valid()
      modifies store
      ensures Valid() && taskId == id
      ensures Goals(store.entries) == Goals(old(store.entries))
      ensures TasksKept(Tasks(old(store.entries)), Tasks(store.entries), TaskKey(id))
      ensures var t := Task.Task(id, goalId, text, Active);
              var e := TaskEntry(t, Encode(answer, dModel), now);
              && (TooBig(store.limits, Category.Task, e.byteSize) ==> Tasks(store.entries) == Tasks(old(store.entries)))
              && (!TooBig(store.limits, Category.Task, e.byteSize) ==>
                    (TaskKey(id) in Tasks(store.entries) <==> Welcome(store.limits, old(store.entries), e, now)))
              && (!TooBig(store.limits, Category.Task, e.byteSize) && TaskKey(id) in Tasks(store.entries) ==> Tasks(store.entries)[TaskKey(id)] == t)
    {
      var t := Task.Task(id, goalId, text, Active);
      var v := Encode(answer, dModel);
      var r := store.StoreWithOptions(TaskKey(id), v, TaskMetadata(t), PinnedNoTtl(), now);
      StoredTask(store.limits, old(store.entries), store.entries, t, v, now, r);
      taskId := id;
    }

    /** Changes a task's status in place; nothing else changes. */
    method UpdateTask(taskId: string, status: TaskStatus, now: nat) returns (ok: bool)
      requires Valid()
      modifies store
      ensures Valid()
      ensures ok == (TaskKey(taskId) in Tasks(old(store.entries)))
      ensures !ok ==> store.entries == old(store.entries)
      ensures ok ==> Tasks(store.entries) == Tasks(old(store.entries))[TaskKey(taskId) := Tasks(old(store.entries))[TaskKey(taskId)].(status := status)]
      ensures ok ==> TaskKey(taskId) in store.entries && store.entries[TaskKey(taskId)].pinned == (status != Done)
      ensures store.entries - {TaskKey(taskId)} == old(store.entries) - {TaskKey(taskId)}
    {
      var key := TaskKey(taskId);
      KeyOf(taskId);
      if key in store.entries {
        BoardAt(store.entries, key);
      }
      var e := store.Get(key, now);
      if e.None? {
        return false;
      }
      ghost var was := old(store.entries)[key];
      WellFormedAt(store.S(), key);
      RetaggedCanon(key, was, status, now);
      TaskRewritten(old(store.entries), key, Retagged(was, status, now));
      var options := if status == Done then StoreOptions(false, None) else PinnedNoTtl();
      Rewrite(key, e.value.vector, e.value.metadata.(tags := WithoutStatus(e.value.metadata.tags) + [StatusTag(status)]), options, now);
      assert store.entries == old(store.entries)[key := Retagged(was, status, now)];
      ok := true;
    }

    /** The tasks of one goal, each once. */
    method ListTasks(goalId: string, now: nat) returns (r: seq<Task>)
      requires Valid()
      ensures EnumeratesTasks(r, TasksOf(Tasks(store.entries), goalId))
    {
      var es := store.QueryByTag(GoalKey(goalId), now);
      var tasks := OnlyTasks(es, store.entries, KeysTagged(store.entries, GoalKey(goalId)), now);
      TasksListedOf(tasks, store.entries, goalId, now);
      r := TasksFrom(tasks);
    }

    /** Replaces the rolling status, naming the current goal or none. */
    method SetStatus(text: string, answer: Option<seq<real>>, now: nat) returns (ok: bool)
      requires Valid()
      modifies store
      ensures Valid() && ok
      ensures Goals(store.entries) == Goals(old(store.entries))
      ensures TasksKept(Tasks(old(store.entries)), Tasks(store.entries), STATUS_KEY)
      ensures exists goalId ::
                && Names(Goals(old(store.entries)), goalId)
                && var e := StatusEntryFor(StatusEntry(text, goalId), Encode(answer, dModel), now);
                   LiveStatus(store.entries, now) ==
                   (if TooBig(store.limits, Category.Status, e.byteSize) then LiveStatus(old(store.entries), now)
                    else if Welcome(store.limits, old(store.entries), e, now) then Some(StatusEntry(text, goalId))
                    else None)
    {
      var g := CurrentGoal(now);
      var goalId := if g.Some? then g.value.goalId else "none";
      var v := Encode(answer, dModel);
      var st := StatusEntry(text, goalId);
      var r := store.StoreWithOptions(STATUS_KEY, v, StatusMetadata(st), StoreOptions(false, Some(STATUS_TTL_SECONDS)), now);
      StoredStatus(store.limits, old(store.entries), store.entries, st, v, now, r);
      ok := true;
    }

    /** The status, unless it has expired. */
    method LatestStatus(now: nat) returns (r: Option<StatusEntry>)
      requires Valid()
      ensures r == LiveStatus(store.entries, now)
    {
      var es := store.QueryByCategory(Category.Status, now);
      var e := Latest(es);
      OneStatus(es, store.entries, now);
      r := if e.Some? then Some(StatusOf(e.value)) else None;
    }

    /** What is saved to disk: every goal and task and the latest status. */
    method SnapshotForSave(now: nat) returns (s: PersistedState)
      requires Valid()
      ensures Describes(s, store.entries, now)
    {
      var goals := ListGoals(now);
      var es := store.QueryByCategory(Category.Task, now);
      TasksListed(es, store.entries, KeysIn(store.entries, Category.Task), now);
      AllTasks(store.entries);
      var status := LatestStatus(now);
      s := PersistedState(goals, TasksFrom(es), status);
    }

    method RestoreGoal(g: Goal, answer: Option<seq<real>>, now: nat)
      requires store.Valid()
      modifies store
      ensures store.Valid()
      ensures StoredAs(store.limits, old(store.entries), store.entries, GoalEntry(g, Encode(answer, dModel), now), now)
    {
      var _ := store.StoreWithOptions(GoalKey(g.goalId), Encode(answer, dModel), GoalMetadata(g), PinnedNoTtl(), now);
    }

    method RestoreTask(t: Task, answer: Option<seq<real>>, now: nat)
      requires store.Valid()
      modifies store
      ensures store.Valid()
      ensures StoredAs(store.limits, old(store.entries), store.entries, TaskEntry(t, Encode(answer, dModel), now), now)
    {
      var options := if t.status == Done then StoreOptions(false, None) else PinnedNoTtl();
      var _ := store.StoreWithOptions(TaskKey(t.taskId), Encode(answer, dModel), TaskMetadata(t), options, now);
    }

    method RestoreStatus(st: StatusEntry, answer: Option<seq<real>>, now: nat)
      requires store.Valid()
      modifies store
      ensures store.Valid()
      ensures StoredAs(store.limits, old(store.entries), store.entries, StatusEntryFor(st, Encode(answer, dModel), now), now)
    {
      var _ := store.StoreWithOptions(STATUS_KEY, Encode(answer, dModel), StatusMetadata(st), StoreOptions(false, Some(STATUS_TTL_SECONDS)), now);
    }

    /** Stores a saved state's goals, then its tasks, then its status, with the encoder's answers in that order. */
    method Restore(s: PersistedState, answers: nat -> Option<seq<real>>, now: nat)
      requires store.Valid()
      modifies store
      ensures store.Valid()
      ensures Chain(store.limits, Items(s, answers, dModel, now), now, old(store.entries), Count(s), store.entries)
    {
      SoFarStart(store.limits, s, answers, dModel, now, store.entries);
      RestoreGoals(s, answers, now, store.entries);
      RestoreTasks(s, answers, now, old(store.entries));
      RestoreLast(s, answers, now, old(store.entries));
    }

    method RestoreGoals(s: PersistedState, answers: nat -> Option<seq<real>>, now: nat, ghost before: Entries)
      requires store.Valid() && SoFar(store.limits, s, answers, dModel, now, before, 0, store.entries)
      modifies store
      ensures store.Valid() && SoFar(store.limits, s, answers, dModel, now, before, |s.goals|, store.entries)
    {
      hide Chain, SoFar, Items, StoredAs;
      var i := 0;
      while i < |s.goals|
        invariant i <= |s.goals|
        invariant store.Valid() && SoFar(store.limits, s, answers, dModel, now, before, i, store.entries)
      {
        ghost var mid := store.entries;
        RestoreGoal(s.goals[i], answers(i), now);
        SoFarGoal(store.limits, s, answers, dModel, now, before, mid, i, store.entries);
        i := i + 1;
      }
    }

    method RestoreTasks(s: PersistedState, answers: nat -> Option<seq<real>>, now: nat, ghost before: Entries)
      requires store.Valid() && SoFar(store.limits, s, answers, dModel, now, before, |s.goals|, store.entries)
      modifies store
      ensures store.Valid() && SoFar(store.limits, s, answers, dModel, now, before, |s.goals| + |s.tasks|, store.entries)
    {
      hide Chain, SoFar, Items, StoredAs;
      var i := |s.goals|;
      while i < |s.goals| + |s.tasks|
        invariant |s.goals| <= i <= |s.goals| + |s.tasks|
        invariant store.Valid() && SoFar(store.limits, s, answers, dModel, now, before, i, store.entries)
      {
        ghost var mid := store.entries;
        RestoreTask(s.tasks[i - |s.goals|], answers(i), now);
        SoFarTask(store.limits, s, answers, dModel, now, before, mid, i, store.entries);
        i := i + 1;
      }
    }

    method RestoreLast(s: PersistedState, answers: nat -> Option<seq<real>>, now: nat, ghost before: Entries)
      requires store.Valid() && SoFar(store.limits, s, answers, dModel, now, before, |s.goals| + |s.tasks|, store.entries)
      modifies store
      ensures store.Valid()
      ensures Chain(store.limits, Items(s, answers, dModel, now), now, before, Count(s), store.entries)
    {
      hide Chain, SoFar, Items, StoredAs;
      var n := |s.goals| + |s.tasks|;
      if s.status.Some? {
        ghost var mid := store.entries;
        RestoreStatus(s.status.value, answers(n), now);
        SoFarStatus(store.limits, s, answers, dModel, now, before, mid, n, store.entries);
        SoFarAll(store.limits, s, answers, dModel, now, before, n + 1, store.entries);
      } else {
        SoFarAll(store.limits, s, answers, dModel, now, before, n, store.entries);
      }
    }

    /** After a model swap: every goal, task and status stored again with fresh vectors. */
    method ReencodeAll(answers: nat -> Option<seq<real>>, now: nat) returns (s: PersistedState)
      requires Valid()
      modifies store
      ensures store.Valid()
      ensures Describes(s, old(store.entries), now)
      ensures Chain(store.limits, Items(s, answers, dModel, now), now, old(store.entries), Count(s), store.entries)
    {
      s := SnapshotForSave(now);
      Restore(s, answers, now);
    }
  }

  /** The id a status records: the current goal's, or "none". */
  ghost predicate Names(goals: map<string, Goal>, goalId: string) {
    || (GoalKey(goalId) in goals && goals[GoalKey(goalId)].isCurrent)
    || (goalId == "none" && forall k :: k in goals ==> !goals[k].isCurrent)
  }

  /** Where the first entry tagged current is; past the end if there is none. */
  method FirstCurrent(es: seq<Entry>) returns (i: nat)
    ensures i <= |es| && (i < |es| ==> CURRENT in es[i].metadata.tags)
    ensures forall j :: 0 <= j < i ==> CURRENT !in es[j].metadata.tags
  {
    i := 0;
    while i < |es| && CURRENT !in es[i].metadata.tags
      invariant i <= |es|
      invariant forall j :: 0 <= j < i ==> CURRENT !in es[j].metadata.tags
    {
      i := i + 1;
    }
  }

  /** The newest of the entries, the last among equals. */
  method Latest(es: seq<Entry>) returns (r: Option<Entry>)
    ensures r.None? <==> es == []
    ensures r.Some? ==> r.value in es && forall i :: 0 <= i < |es| ==> es[i].createdAt <= r.value.createdAt
    ensures r.Some? ==> exists k :: 0 <= k < |es| && es[k] == r.value && forall j :: k < j < |es| ==> es[j].createdAt < r.value.createdAt
  {
    r := None;
    var i := 0;
    while i < |es|
      invariant 0 <= i <= |es|
      invariant r.None? <==> i == 0
      invariant r.Some? ==> r.value in es[..i] && forall j :: 0 <= j < i ==> es[j].createdAt <= r.value.createdAt
      invariant r.Some? ==> exists k :: 0 <= k < i && es[k] == r.value && forall j :: k < j < i ==> es[j].createdAt < r.value.createdAt
    {
      if r.None? || es[i].createdAt >= r.value.createdAt {
        r := Some(es[i]);
      }
      i := i + 1;
    }
  }

  method CurrentKeys(es: seq<Entry>, ghost entries: Entries, ghost now: nat) returns (keys: seq<string>)
    requires Board(entries) && Lists(es, entries, KeysIn(entries, Category.Goal), now)
    ensures forall i :: 0 <= i < |keys| ==> keys[i] in entries
    ensures forall i, j :: 0 <= i < j < |keys| ==> keys[i] != keys[j]
    ensures forall k :: k in entries ==> (k in keys <==> IsCurrent(entries[k]))
  {
    keys := [];
    var i := 0;
    while i < |es|
      invariant 0 <= i <= |es|
      invariant forall k :: k in keys ==> k in entries && IsCurrent(entries[k]) && exists l :: 0 <= l < i && es[l].key == k
      invariant forall l :: 0 <= l < i && IsCurrent(es[l]) ==> es[l].key in keys
      invariant forall a, b :: 0 <= a < b < |keys| ==> keys[a] != keys[b]
    {
      assert es[i].key in KeysIn(entries, Category.Goal);
      if CURRENT in es[i].metadata.tags {
        keys := keys + [es[i].key];
      }
      i := i + 1;
    }
    forall k | k in entries ensures k in keys <==> IsCurrent(entries[k]) {
      BoardAt(entries, k);
    }
  }

  /** Those listed that are tasks. */
  method OnlyTasks(es: seq<Entry>, ghost entries: Entries, ghost keys: set<string>, ghost now: nat) returns (r: seq<Entry>)
    requires Lists(es, entries, keys, now)
    ensures Lists(r, entries, keys * KeysIn(entries, Category.Task), now)
  {
    r := [];
    var i := 0;
    while i < |es|
      invariant 0 <= i <= |es|
      invariant forall j {:trigger r[j]} :: 0 <= j < |r| ==> r[j] in es[..i] && r[j].metadata.category == Category.Task
      invariant forall l :: 0 <= l < i && es[l].metadata.category == Category.Task ==> es[l] in r
      invariant forall a, b :: 0 <= a < b < |r| ==> r[a].key != r[b].key
    {
      if es[i].metadata.category == Category.Task {
        r := r + [es[i]];
      }
      i := i + 1;
    }
  }

  lemma TasksListedOf(es: seq<Entry>, entries: Entries, goalId: string, now: nat)
    requires Board(entries)
    requires Lists(es, entries, KeysTagged(entries, GoalKey(goalId)) * KeysIn(entries, Category.Task), now)
    ensures EnumeratesTasks(TasksFrom(es), TasksOf(Tasks(entries), goalId))
  {
    var keys := KeysTagged(entries, GoalKey(goalId)) * KeysIn(entries, Category.Task);
    TasksListed(es, entries, keys, now);
    forall k | k in Tasks(entries) ensures k in keys <==> Tasks(entries)[k].goalId == goalId {
      TaggedWithGoal(entries, k, goalId);
    }
    assert (map k | k in Tasks(entries) && k in keys :: Tasks(entries)[k]) == TasksOf(Tasks(entries), goalId);
  }

  lemma AllTasks(entries: Entries)
    ensures (map k | k in Tasks(entries) && k in KeysIn(entries, Category.Task) :: Tasks(entries)[k]) == Tasks(entries)
  {
  }

  /** At most one goal is current, so any that is current is the one found. */
  lemma OneMarked(entries: Entries)
    requires Board(entries)
    ensures forall j, k :: j in Goals(entries) && k in Goals(entries) && Goals(entries)[j].isCurrent && Goals(entries)[k].isCurrent ==> j == k
  {
    assert Unfold(0);
    assert BoardBody(entries);
  }

  lemma OneStatus(es: seq<Entry>, entries: Entries, now: nat)
    requires Board(entries) && Lists(es, entries, KeysIn(entries, Category.Status), now)
    ensures es == [] ==> LiveStatus(entries, now) == None
    ensures forall e :: e in es ==> LiveStatus(entries, now) == Some(StatusOf(e))
  {
    forall i | 0 <= i < |es| ensures es[i].key == STATUS_KEY {
      BoardAt(entries, es[i].key);
    }
    if STATUS_KEY in entries {
      BoardAt(entries, STATUS_KEY);
    }
  }

  lemma StoredGoal(lim: Limits, before: Entries, after: Entries, g: Goal, v: seq<real>, now: nat, r: Result<(), StoreError>)
    requires Board(before) && Outcome(lim, before, after, GoalEntry(g, v, now), now, r)
    requires forall k :: k in before ==> !IsCurrent(before[k])
    ensures var e := GoalEntry(g, v, now);
            && Board(after)
            && Goals(after) == (if TooBig(lim, Category.Goal, e.byteSize) then Goals(before)
                                else if Welcome(lim, before, e, now) then Goals(before)[GoalKey(g.goalId) := g]
                                else Goals(before) - {GoalKey(g.goalId)})
            && TasksKept(Tasks(before), Tasks(after), GoalKey(g.goalId))
  {
    var e := GoalEntry(g, v, now);
    GoalRoundTrip(g, v, now);
    StoreKeepsBoard(lim, before, after, e, now);
    GoalsAfter(lim, before, after, e, now);
    TasksStay(lim, before, after, e, now);
  }

  lemma StoredTask(lim: Limits, before: Entries, after: Entries, t: Task, v: seq<real>, now: nat, r: Result<(), StoreError>)
    requires Board(before) && Outcome(lim, before, after, TaskEntry(t, v, now), now, r)
    ensures var e := TaskEntry(t, v, now);
            && Board(after)
            && Goals(after) == Goals(before)
            && TasksKept(Tasks(before), Tasks(after), TaskKey(t.taskId))
            && (TooBig(lim, Category.Task, e.byteSize) ==> Tasks(after) == Tasks(before))
            && (!TooBig(lim, Category.Task, e.byteSize) ==> (TaskKey(t.taskId) in Tasks(after) <==> Welcome(lim, before, e, now)))
            && (!TooBig(lim, Category.Task, e.byteSize) && TaskKey(t.taskId) in Tasks(after) ==> Tasks(after)[TaskKey(t.taskId)] == t)
  {
    var e := TaskEntry(t, v, now);
    TaskRoundTrip(t, v, now);
    StoreKeepsBoard(lim, before, after, e, now);
    GoalsStay(lim, before, after, e, now);
    TasksStay(lim, before, after, e, now);
    TaskAfter(lim, before, after, e, now);
  }

  lemma StoredStatus(lim: Limits, before: Entries, after: Entries, st: StatusEntry, v: seq<real>, now: nat, r: Result<(), StoreError>)
    requires Board(before) && Outcome(lim, before, after, StatusEntryFor(st, v, now), now, r)
    ensures var e := StatusEntryFor(st, v, now);
            && Board(after)
            && Goals(after) == Goals(before)
            && TasksKept(Tasks(before), Tasks(after), STATUS_KEY)
            && LiveStatus(after, now) == (if TooBig(lim, Category.Status, e.byteSize) then LiveStatus(before, now)
                                          else if Welcome(lim, before, e, now) then Some(st)
                                          else None)
  {
    var e := StatusEntryFor(st, v, now);
    StatusRoundTrip(st, v, now);
    StoreKeepsBoard(lim, before, after, e, now);
    GoalsStay(lim, before, after, e, now);
    TasksStay(lim, before, after, e, now);
    AtKey(lim, before, after, e, now);
  }

  /** Other writers' entries, outside the manager's keys and categories, cost no goal and no unfinished task. */
  lemma PressureKeepsGoals(lim: Limits, before: Entries, after: Entries, e: Entry, now: nat, r: Result<(), StoreError>)
    requires Board(before) && Outcome(lim, before, after, e, now, r)
    requires !("goal:" <= e.key) && !("task:" <= e.key) && e.key != STATUS_KEY
    requires e.metadata.category !in {Category.Goal, Category.Task, Category.Status}
    ensures Board(after) && Goals(after) == Goals(before) && TasksKept(Tasks(before), Tasks(after), e.key)
  {
    StoreKeepsBoard(lim, before, after, e, now);
    GoalsStay(lim, before, after, e, now);
    TasksStay(lim, before, after, e, now);
  }
}
