/**
 The budgeted in-memory store: an entry map with byte counters and two secondary indexes, expiry,
 and eviction of unpinned entries, lowest relevance first and same category preferred.
 */
module MemoryStore {
  import opened Wrappers

  datatype Category = Finding | Context | Pattern | Correction | Knowledge | Goal | Task | Status

  datatype Metadata = Metadata(sourceRequestId: string, layerCaptured: nat, category: Category, tags: seq<string>, textSummary: string)

  datatype Entry = Entry(key: string, vector: seq<real>, metadata: Metadata, createdAt: nat, accessCount: nat, relevance: real,
                         expiresAt: Option<nat>, pinned: bool, byteSize: nat)
  {
    predicate Expired(now: nat) {
      expiresAt.Some? && expiresAt.value <= now
    }

    /** May not be dropped to make room. */
    predicate Hard(now: nat) {
      pinned && !Expired(now)
    }
  }

  datatype StoreOptions = StoreOptions(pinned: bool, ttlSeconds: Option<nat>)

  datatype StoreError = Oversize | Full

  type Entries = map<string, Entry>

  // ---------------------------------------------------------------- sums over entries

  function Sizes(entries: Entries): map<string, nat> {
    map k | k in entries :: entries[k].byteSize
  }

  /** Sizes in one category, zero elsewhere. */
  function SizesIn(entries: Entries, cat: Category): map<string, nat> {
    map k | k in entries :: ShareIn(entries[k], cat)
  }

  ghost function Bytes(entries: Entries): nat {
    SumMap(Sizes(entries))
  }

  ghost function BytesIn(entries: Entries, cat: Category): nat {
    SumMap(SizesIn(entries, cat))
  }

  lemma BytesPut(entries: Entries, k: string, e: Entry)
    requires k !in entries
    ensures Bytes(entries[k := e]) == Bytes(entries) + e.byteSize
  {
    SizesPut(entries, k, e);
    SumMapPut(Sizes(entries), k, e.byteSize);
  }

  lemma SizesPut(entries: Entries, k: string, e: Entry)
    ensures Sizes(entries[k := e]) == Sizes(entries)[k := e.byteSize]
  {
  }

  function ShareIn(e: Entry, cat: Category): nat {
    if e.metadata.category == cat then e.byteSize else 0
  }

  lemma SizesInPut(entries: Entries, k: string, e: Entry, cat: Category)
    ensures SizesIn(entries[k := e], cat) == SizesIn(entries, cat)[k := ShareIn(e, cat)]
  {
  }

  lemma BytesInPut(entries: Entries, k: string, e: Entry, cat: Category)
    requires k !in entries
    ensures BytesIn(entries[k := e], cat) == BytesIn(entries, cat) + ShareIn(e, cat)
  {
    SizesInPut(entries, k, e, cat);
    SumMapPut(SizesIn(entries, cat), k, ShareIn(e, cat));
  }

  lemma PutBack(entries: Entries, k: string)
    requires k in entries
    ensures entries == (entries - {k})[k := entries[k]]
  {
  }

  lemma BytesTake(entries: Entries, k: string, cat: Category)
    requires k in entries
    ensures Bytes(entries) == Bytes(entries - {k}) + entries[k].byteSize
    ensures BytesIn(entries, cat) == BytesIn(entries - {k}, cat) + ShareIn(entries[k], cat)
  {
    PutBack(entries, k);
    BytesPut(entries - {k}, k, entries[k]);
    BytesInPut(entries - {k}, k, entries[k], cat);
  }

  /** Fewer entries, fewer bytes. */
  lemma {:induction false} BytesMonotone(a: Entries, b: Entries, cat: Category)
    requires a.Keys <= b.Keys && forall k :: k in a ==> a[k] == b[k]
    ensures Bytes(a) <= Bytes(b) && BytesIn(a, cat) <= BytesIn(b, cat) && |a| <= |b|
    decreases |b|
  {
    if k :| k in b && k !in a {
      BytesTake(b, k, cat);
      BytesMonotone(a, b - {k}, cat);
    } else {
      assert a == b;
    }
  }

  // ---------------------------------------------------------------- indexes

  function SetOf<K>(m: map<K, set<string>>, k: K): set<string> {
    if k in m then m[k] else {}
  }

  function NumOf<K>(m: map<K, nat>, k: K): nat {
    if k in m then m[k] else 0
  }

  function KeysIn(entries: Entries, cat: Category): set<string> {
    set k | k in entries && entries[k].metadata.category == cat
  }

  function KeysTagged(entries: Entries, tag: string): set<string> {
    set k | k in entries && tag in entries[k].metadata.tags
  }

  /** Everything the store keeps about its entries. */
  datatype State = State(entries: Entries, bytesUsed: nat, categoryBytes: map<Category, nat>,
                         byCategory: map<Category, set<string>>, byTag: map<string, set<string>>)

  /** Scores start at one and are only ever capped at one, so they never move. */
  ghost predicate WellFormed(e: Entry, k: string) {
    e.key == k && e.byteSize == 4 * |e.vector| && e.relevance == 1.0
  }

  /** Counters are the sums over the entries, and indexes are the filtered key sets. */
  ghost predicate ConsistentBody(s: State) {
    && (forall k :: k in s.entries ==> WellFormed(s.entries[k], k))
    && s.bytesUsed == Bytes(s.entries)
    && (forall cat :: NumOf(s.categoryBytes, cat) == BytesIn(s.entries, cat))
    && (forall cat :: SetOf(s.byCategory, cat) == KeysIn(s.entries, cat))
    && (forall tag :: SetOf(s.byTag, tag) == KeysTagged(s.entries, tag))
  }

  ghost predicate Consistent(s: State) {
    forall n :: Unfold(n) ==> ConsistentBody(s)
  }

  /** Adds or removes a key under the first n tags. */
  function Tagged(byTag: map<string, set<string>>, tags: seq<string>, key: string, n: nat): map<string, set<string>>
    requires n <= |tags|
  {
    if n == 0 then byTag
    else
      var m := Tagged(byTag, tags, key, n - 1);
      m[tags[n - 1] := SetOf(m, tags[n - 1]) + {key}]
  }

  function Untagged(byTag: map<string, set<string>>, tags: seq<string>, key: string, n: nat): map<string, set<string>>
    requires n <= |tags|
  {
    if n == 0 then byTag
    else
      var m := Untagged(byTag, tags, key, n - 1);
      if tags[n - 1] in m then m[tags[n - 1] := m[tags[n - 1]] - {key}] else m
  }

  lemma {:induction false} TaggedSets(byTag: map<string, set<string>>, tags: seq<string>, key: string, n: nat, tag: string)
    requires n <= |tags|
    ensures SetOf(Tagged(byTag, tags, key, n), tag) == SetOf(byTag, tag) + if tag in tags[..n] then {key} else {}
  {
    if n > 0 {
      TaggedSets(byTag, tags, key, n - 1, tag);
      assert tags[..n] == tags[..n - 1] + [tags[n - 1]];
    }
  }

  lemma {:induction false} UntaggedSets(byTag: map<string, set<string>>, tags: seq<string>, key: string, n: nat, tag: string)
    requires n <= |tags|
    ensures SetOf(Untagged(byTag, tags, key, n), tag) == SetOf(byTag, tag) - if tag in tags[..n] then {key} else {}
  {
    if n > 0 {
      UntaggedSets(byTag, tags, key, n - 1, tag);
      assert tags[..n] == tags[..n - 1] + [tags[n - 1]];
    }
  }

  /** The entry under `key` taken out of map, counters and indexes; counters subtract with saturation at zero. */
  function Removed(s: State, key: string): State
    requires key in s.entries
  {
    var e := s.entries[key];
    var cat := e.metadata.category;
    State(s.entries - {key},
          if s.bytesUsed >= e.byteSize then s.bytesUsed - e.byteSize else 0,
          if cat in s.categoryBytes then
            s.categoryBytes[cat := if s.categoryBytes[cat] >= e.byteSize then s.categoryBytes[cat] - e.byteSize else 0]
          else s.categoryBytes,
          if cat in s.byCategory then s.byCategory[cat := s.byCategory[cat] - {key}] else s.byCategory,
          Untagged(s.byTag, e.metadata.tags, key, |e.metadata.tags|))
  }

  /** A new entry entered into map, counters and indexes. */
  function Inserted(s: State, e: Entry): State {
    var cat := e.metadata.category;
    State(s.entries[e.key := e], s.bytesUsed + e.byteSize,
          s.categoryBytes[cat := NumOf(s.categoryBytes, cat) + e.byteSize],
          s.byCategory[cat := SetOf(s.byCategory, cat) + {e.key}],
          Tagged(s.byTag, e.metadata.tags, e.key, |e.metadata.tags|))
  }

  lemma RemovedCounters(s: State, key: string, cat: Category)
    requires Consistent(s) && key in s.entries
    ensures s.bytesUsed >= s.entries[key].byteSize && Removed(s, key).bytesUsed == Bytes(s.entries - {key})
    ensures NumOf(s.categoryBytes, cat) >= ShareIn(s.entries[key], cat)
    ensures NumOf(Removed(s, key).categoryBytes, cat) == BytesIn(s.entries - {key}, cat)
  {
    assert Unfold(0);
    assert NumOf(s.categoryBytes, cat) == BytesIn(s.entries, cat);
    BytesTake(s.entries, key, cat);
  }

  lemma RemovedKeys(s: State, key: string, cat: Category)
    requires Consistent(s) && key in s.entries
    ensures SetOf(Removed(s, key).byCategory, cat) == KeysIn(s.entries - {key}, cat)
  {
    assert Unfold(0);
    assert SetOf(s.byCategory, cat) == KeysIn(s.entries, cat);
    assert KeysIn(s.entries - {key}, cat) == KeysIn(s.entries, cat) - {key};
  }

  lemma RemovedTags(s: State, key: string, tag: string)
    requires Consistent(s) && key in s.entries
    ensures SetOf(Removed(s, key).byTag, tag) == KeysTagged(s.entries - {key}, tag)
  {
    assert Unfold(0);
    var tags := s.entries[key].metadata.tags;
    assert SetOf(s.byTag, tag) == KeysTagged(s.entries, tag);
    UntaggedSets(s.byTag, tags, key, |tags|, tag);
    assert tags[..|tags|] == tags;
    assert KeysTagged(s.entries - {key}, tag) == KeysTagged(s.entries, tag) - {key};
  }

  /** Removal keeps everything in step, and the saturating subtractions never saturate. */
  lemma RemovedConsistent(s: State, key: string)
    requires Consistent(s) && key in s.entries
    ensures Consistent(Removed(s, key))
    ensures s.bytesUsed >= s.entries[key].byteSize
    ensures NumOf(s.categoryBytes, s.entries[key].metadata.category) >= s.entries[key].byteSize
  {
    RemovedCounters(s, key, s.entries[key].metadata.category);
    var s' := Removed(s, key);
    forall cat ensures NumOf(s'.categoryBytes, cat) == BytesIn(s'.entries, cat) && SetOf(s'.byCategory, cat) == KeysIn(s'.entries, cat) {
      RemovedCounters(s, key, cat);
      RemovedKeys(s, key, cat);
    }
    forall tag ensures SetOf(s'.byTag, tag) == KeysTagged(s'.entries, tag) {
      RemovedTags(s, key, tag);
    }
    assert Unfold(0);
  }

  lemma InsertedCounters(s: State, e: Entry, cat: Category)
    requires Consistent(s) && e.key !in s.entries
    ensures Inserted(s, e).bytesUsed == Bytes(s.entries[e.key := e])
    ensures NumOf(Inserted(s, e).categoryBytes, cat) == BytesIn(s.entries[e.key := e], cat)
  {
    assert Unfold(0);
    assert NumOf(s.categoryBytes, cat) == BytesIn(s.entries, cat);
    BytesPut(s.entries, e.key, e);
    BytesInPut(s.entries, e.key, e, cat);
  }

  lemma InsertedKeys(s: State, e: Entry, cat: Category)
    requires Consistent(s) && e.key !in s.entries
    ensures SetOf(Inserted(s, e).byCategory, cat) == KeysIn(s.entries[e.key := e], cat)
  {
    assert Unfold(0);
    assert SetOf(s.byCategory, cat) == KeysIn(s.entries, cat);
    hide Tagged, Untagged, KeysTagged;
    assert KeysIn(s.entries[e.key := e], cat) == KeysIn(s.entries, cat) + if e.metadata.category == cat then {e.key} else {};
  }

  lemma InsertedTags(s: State, e: Entry, tag: string)
    requires Consistent(s) && e.key !in s.entries
    ensures SetOf(Inserted(s, e).byTag, tag) == KeysTagged(s.entries[e.key := e], tag)
  {
    assert Unfold(0);
    var tags := e.metadata.tags;
    assert SetOf(s.byTag, tag) == KeysTagged(s.entries, tag);
    TaggedSets(s.byTag, tags, e.key, |tags|, tag);
    assert tags[..|tags|] == tags;
    assert KeysTagged(s.entries[e.key := e], tag) == KeysTagged(s.entries, tag) + if tag in tags then {e.key} else {};
  }

  lemma InsertedConsistent(s: State, e: Entry)
    requires Consistent(s) && e.key !in s.entries && WellFormed(e, e.key)
    ensures Consistent(Inserted(s, e))
  {
    InsertedCounters(s, e, e.metadata.category);
    var s' := Inserted(s, e);
    forall cat ensures NumOf(s'.categoryBytes, cat) == BytesIn(s'.entries, cat) && SetOf(s'.byCategory, cat) == KeysIn(s'.entries, cat) {
      InsertedCounters(s, e, cat);
      InsertedKeys(s, e, cat);
    }
    forall tag ensures SetOf(s'.byTag, tag) == KeysTagged(s'.entries, tag) {
      InsertedTags(s, e, tag);
    }
    assert Unfold(0);
  }

  // ---------------------------------------------------------------- budgets and making room

  datatype Limits = Limits(maxEntries: nat, byteBudget: nat, categoryBudgets: map<Category, nat>)
  {
    /** A category without a budget of its own has the whole store's. */
    function CategoryBudget(cat: Category): nat {
      if cat in categoryBudgets then categoryBudgets[cat] else byteBudget
    }
  }

  ghost predicate WithinBody(lim: Limits, entries: Entries) {
    && |entries| <= lim.maxEntries
    && Bytes(entries) <= lim.byteBudget
    && forall cat {:trigger BytesIn(entries, cat)} :: BytesIn(entries, cat) <= lim.CategoryBudget(cat)
  }

  /** All three budgets hold. */
  ghost predicate Within(lim: Limits, entries: Entries) {
    forall n :: Unfold(n) ==> WithinBody(lim, entries)
  }

  /** The budgets as given: a store within them holds no more entries, no more bytes, and no more of a category that has a budget of its own. */
  lemma BudgetsHeld(lim: Limits, entries: Entries, cat: Category)
    requires Within(lim, entries)
    ensures |entries| <= lim.maxEntries && Bytes(entries) <= lim.byteBudget
    ensures cat in lim.categoryBudgets ==> BytesIn(entries, cat) <= lim.categoryBudgets[cat]
  {
    assert Unfold(0);
    assert BytesIn(entries, cat) <= lim.CategoryBudget(cat);
  }

  /** A category without a budget of its own may fill the whole store. */
  lemma FitsIff(lim: Limits, entries: Entries, cat: Category, size: nat)
    requires Within(lim, entries)
    ensures Fits(lim, entries, cat, size) <==>
            && |entries| < lim.maxEntries && Bytes(entries) + size <= lim.byteBudget
            && (cat in lim.categoryBudgets ==> BytesIn(entries, cat) + size <= lim.categoryBudgets[cat])
  {
    BytesInPart(entries, cat);
  }

  /** A category's bytes are part of the store's. */
  lemma {:induction false} BytesInPart(entries: Entries, cat: Category)
    ensures BytesIn(entries, cat) <= Bytes(entries)
    decreases |entries|
  {
    if k :| k in entries {
      BytesTake(entries, k, cat);
      BytesInPart(entries - {k}, cat);
    } else {
      assert entries == map[];
      EmptyBytes(cat);
    }
  }

  /** A stored entry expires exactly its time to live after it was stored, and without one never. */
  lemma LivesFor(key: string, vector: seq<real>, metadata: Metadata, options: StoreOptions, now: nat, t: nat)
    ensures NewEntry(key, vector, metadata, options, now).Expired(t) <==> options.ttlSeconds.Some? && now + options.ttlSeconds.value <= t
    ensures NewEntry(key, vector, metadata, options, now).Hard(t) <==> options.pinned && !(options.ttlSeconds.Some? && now + options.ttlSeconds.value <= t)
  {
  }

  /** Room for one more entry. */
  ghost predicate Fits(lim: Limits, entries: Entries, cat: Category, size: nat) {
    && |entries| < lim.maxEntries
    && Bytes(entries) + size <= lim.byteBudget
    && BytesIn(entries, cat) + size <= lim.CategoryBudget(cat)
  }

  predicate TooBig(lim: Limits, cat: Category, size: nat) {
    size > lim.CategoryBudget(cat) || size > lim.byteBudget
  }

  ghost predicate Sub(a: Entries, b: Entries) {
    a.Keys <= b.Keys && forall k :: k in a ==> a[k] == b[k]
  }

  /** Left out of `cur` while still unexpired. */
  ghost predicate LostLive(base: Entries, cur: Entries, k: string, now: nat) {
    k in base && k !in cur && !base[k].Expired(now)
  }

  /**
   What making room may have done to `base`: pinned unexpired entries stay, live entries go only once
   no expired one remains, and live entries of another category only once no unpinned entry of the
   preferred one remains.
   */
  ghost predicate DroppedBody(base: Entries, cur: Entries, cat: Category, now: nat) {
    && Sub(cur, base)
    && (forall k :: k in base && base[k].Hard(now) ==> k in cur)
    && (forall k, j :: LostLive(base, cur, k, now) && j in cur ==> !cur[j].Expired(now))
    && (forall k, j :: LostLive(base, cur, k, now) && base[k].metadata.category != cat && j in cur && cur[j].metadata.category == cat
                       ==> cur[j].pinned)
  }

  ghost predicate Dropped(base: Entries, cur: Entries, cat: Category, now: nat) {
    forall n :: Unfold(n) ==> DroppedBody(base, cur, cat, now)
  }

  /** If anything was dropped, keeping the last of it would have left too little room. */
  ghost predicate LastNeeded(lim: Limits, base: Entries, cur: Entries, cat: Category, size: nat) {
    cur != base ==> exists k :: k in base && k !in cur && !Fits(lim, cur[k := base[k]], cat, size)
  }

  /** May `victim` be dropped now? Expired entries first, then unpinned ones of the preferred category, then any unpinned one. */
  ghost predicate MayDrop(cur: Entries, victim: string, cat: Category, now: nat) {
    && victim in cur
    && (!cur[victim].Expired(now) ==> !cur[victim].pinned && forall j :: j in cur ==> !cur[j].Expired(now))
    && (!cur[victim].Expired(now) && cur[victim].metadata.category != cat ==>
          forall j :: j in cur && cur[j].metadata.category == cat ==> cur[j].pinned)
  }

  lemma DroppedStep(base: Entries, cur: Entries, victim: string, cat: Category, now: nat)
    requires Dropped(base, cur, cat, now) && MayDrop(cur, victim, cat, now)
    ensures Dropped(base, cur - {victim}, cat, now)
  {
    assert Unfold(0);
    assert DroppedBody(base, cur, cat, now);
    var next := cur - {victim};
    forall k, j | LostLive(base, next, k, now) && j in next ensures !next[j].Expired(now) {
      assert k == victim || LostLive(base, cur, k, now);
    }
    forall k, j | LostLive(base, next, k, now) && base[k].metadata.category != cat && j in next && next[j].metadata.category == cat
      ensures next[j].pinned
    {
      assert k == victim || LostLive(base, cur, k, now);
    }
  }

  lemma LastNeededStep(lim: Limits, base: Entries, cur: Entries, victim: string, cat: Category, size: nat)
    requires Sub(cur, base) && victim in cur && !Fits(lim, cur, cat, size)
    ensures LastNeeded(lim, base, cur - {victim}, cat, size)
  {
    PutBack(cur, victim);
    assert victim in base && victim !in cur - {victim} && !Fits(lim, (cur - {victim})[victim := base[victim]], cat, size);
  }

  /** `cur` is what dropping entries to make room has left of `base` so far. */
  ghost predicate Shrunk(lim: Limits, base: Entries, cur: Entries, cat: Category, size: nat, now: nat) {
    forall n :: Unfold(n) ==> DroppedBody(base, cur, cat, now) && LastNeeded(lim, base, cur, cat, size)
  }

  /** The end of making room: the entry fits, or all that is left is pinned and live. */
  ghost predicate RoomMade(lim: Limits, base: Entries, cur: Entries, cat: Category, size: nat, now: nat, ok: bool) {
    forall n :: Unfold(n) ==>
      && DroppedBody(base, cur, cat, now) && LastNeeded(lim, base, cur, cat, size)
      && ok == Fits(lim, cur, cat, size)
      && (!ok ==> cur == HardOf(base, now))
  }

  lemma RoomStart(lim: Limits, base: Entries, cat: Category, size: nat, now: nat)
    ensures Shrunk(lim, base, base, cat, size, now)
  {
  }

  lemma RoomFound(lim: Limits, base: Entries, cur: Entries, cat: Category, size: nat, now: nat)
    requires Shrunk(lim, base, cur, cat, size, now) && Fits(lim, cur, cat, size)
    ensures RoomMade(lim, base, cur, cat, size, now, true)
  {
    assert Unfold(0);
  }

  lemma RoomRefused(lim: Limits, base: Entries, cur: Entries, cat: Category, size: nat, now: nat)
    requires Shrunk(lim, base, cur, cat, size, now) && !Fits(lim, cur, cat, size)
    requires forall k :: k in cur ==> cur[k].Hard(now)
    ensures RoomMade(lim, base, cur, cat, size, now, false)
  {
    assert Unfold(0);
    assert DroppedBody(base, cur, cat, now);
    assert cur == HardOf(base, now);
  }

  lemma RoomStep(lim: Limits, base: Entries, cur: Entries, next: Entries, cat: Category, size: nat, now: nat)
    requires Shrunk(lim, base, cur, cat, size, now) && !Fits(lim, cur, cat, size)
    requires exists k :: MayDrop(cur, k, cat, now) && next == cur - {k}
    ensures Shrunk(lim, base, next, cat, size, now) && |next| < |cur|
  {
    var k :| MayDrop(cur, k, cat, now) && next == cur - {k};
    assert Unfold(0);
    assert DroppedBody(base, cur, cat, now);
    DroppedStep(base, cur, k, cat, now);
    LastNeededStep(lim, base, cur, k, cat, size);
  }

  lemma WellFormedAt(s: State, k: string)
    requires Consistent(s) && k in s.entries
    ensures WellFormed(s.entries[k], k)
  {
    assert Unfold(0);
  }

  lemma FitsCounted(s: State, lim: Limits, cat: Category, size: nat)
    requires Consistent(s)
    ensures Fits(lim, s.entries, cat, size) <==>
            s.bytesUsed + size <= lim.byteBudget && NumOf(s.categoryBytes, cat) + size <= lim.CategoryBudget(cat) && |s.entries| < lim.maxEntries
  {
    assert Unfold(0);
    assert NumOf(s.categoryBytes, cat) == BytesIn(s.entries, cat);
  }

  function HardOf(entries: Entries, now: nat): Entries {
    map k | k in entries && entries[k].Hard(now) :: entries[k]
  }

  lemma WithinTake(lim: Limits, a: Entries, b: Entries)
    requires Within(lim, b) && Sub(a, b)
    ensures Within(lim, a)
  {
    assert Unfold(0);
    forall cat ensures BytesIn(a, cat) <= lim.CategoryBudget(cat) {
      BytesMonotone(a, b, cat);
      assert BytesIn(b, cat) <= lim.CategoryBudget(cat);
    }
    BytesMonotone(a, b, Finding);
  }

  lemma WithinPut(lim: Limits, entries: Entries, e: Entry)
    requires Within(lim, entries) && e.key !in entries && Fits(lim, entries, e.metadata.category, e.byteSize)
    ensures Within(lim, entries[e.key := e])
  {
    assert Unfold(0);
    BytesPut(entries, e.key, e);
    forall cat ensures BytesIn(entries[e.key := e], cat) <= lim.CategoryBudget(cat) {
      BytesInPut(entries, e.key, e, cat);
      assert BytesIn(entries, cat) <= lim.CategoryBudget(cat);
    }
  }

  lemma FitsFewer(lim: Limits, a: Entries, b: Entries, cat: Category, size: nat)
    requires Sub(a, b) && Fits(lim, b, cat, size)
    ensures Fits(lim, a, cat, size)
  {
    BytesMonotone(a, b, cat);
  }

  /** What a store call does to the entries: `e` is the entry it builds. */
  ghost predicate OutcomeBody(lim: Limits, before: Entries, after: Entries, e: Entry, now: nat, r: Result<(), StoreError>) {
    var cat, base := e.metadata.category, before - {e.key};
    match r
    case Err(Oversize) => TooBig(lim, cat, e.byteSize) && after == before
    case Err(Full) => !TooBig(lim, cat, e.byteSize) && after == HardOf(base, now) && !Fits(lim, after, cat, e.byteSize)
    case Ok(_) =>
      && !TooBig(lim, cat, e.byteSize)
      && e.key in after && after[e.key] == e
      && Fits(lim, after - {e.key}, cat, e.byteSize)
      && Shrunk(lim, base, after - {e.key}, cat, e.byteSize, now)
  }

  ghost predicate Outcome(lim: Limits, before: Entries, after: Entries, e: Entry, now: nat, r: Result<(), StoreError>) {
    forall n :: Unfold(n) ==> OutcomeBody(lim, before, after, e, now, r)
  }

  lemma RefusedOutcome(lim: Limits, before: Entries, base: Entries, after: Entries, e: Entry, now: nat)
    requires !TooBig(lim, e.metadata.category, e.byteSize) && base == before - {e.key}
    requires RoomMade(lim, base, after, e.metadata.category, e.byteSize, now, false)
    ensures Outcome(lim, before, after, e, now, Err(Full))
  {
    assert Unfold(0);
  }

  lemma KeyStaysOut(lim: Limits, base: Entries, cur: Entries, cat: Category, size: nat, now: nat, key: string)
    requires RoomMade(lim, base, cur, cat, size, now, true) && key !in base
    ensures key !in cur
  {
    assert Unfold(0);
    assert DroppedBody(base, cur, cat, now);
  }

  lemma StoredOutcome(lim: Limits, before: Entries, base: Entries, cur: Entries, after: Entries, e: Entry, now: nat)
    requires !TooBig(lim, e.metadata.category, e.byteSize) && base == before - {e.key}
    requires RoomMade(lim, base, cur, e.metadata.category, e.byteSize, now, true) && Within(lim, cur)
    requires e.key !in cur && after == cur[e.key := e]
    ensures Outcome(lim, before, after, e, now, Ok(())) && Within(lim, after)
  {
    RoomGiven(lim, base, cur, e.metadata.category, e.byteSize, now);
    WithinPut(lim, cur, e);
    PutTaken(cur, e.key, e);
    OutcomeOk(lim, before, after, cur, e, now);
  }

  lemma PutTaken(entries: Entries, k: string, e: Entry)
    requires k !in entries
    ensures entries[k := e] - {k} == entries
  {
  }

  lemma OutcomeOk(lim: Limits, before: Entries, after: Entries, cur: Entries, e: Entry, now: nat)
    requires !TooBig(lim, e.metadata.category, e.byteSize) && cur == after - {e.key} && e.key in after && after[e.key] == e
    requires Shrunk(lim, before - {e.key}, cur, e.metadata.category, e.byteSize, now) && Fits(lim, cur, e.metadata.category, e.byteSize)
    ensures Outcome(lim, before, after, e, now, Ok(()))
  {
  }

  lemma RoomGiven(lim: Limits, base: Entries, cur: Entries, cat: Category, size: nat, now: nat)
    requires RoomMade(lim, base, cur, cat, size, now, true)
    ensures Shrunk(lim, base, cur, cat, size, now) && Fits(lim, cur, cat, size)
  {
    assert Unfold(0);
  }

  /**
   A store call is refused for lack of room exactly when the other pinned, unexpired entries alone
   leave too little, and refused as oversize exactly when no eviction could ever help.
   */
  lemma RefusedIff(lim: Limits, before: Entries, after: Entries, e: Entry, now: nat, r: Result<(), StoreError>)
    requires Outcome(lim, before, after, e, now, r)
    ensures r == Err(Oversize) <==> TooBig(lim, e.metadata.category, e.byteSize)
    ensures r.Ok? <==> !TooBig(lim, e.metadata.category, e.byteSize) && Fits(lim, HardOf(before - {e.key}, now), e.metadata.category, e.byteSize)
  {
    assert Unfold(0);
    assert OutcomeBody(lim, before, after, e, now, r);
    if r.Ok? {
      assert DroppedBody(before - {e.key}, after - {e.key}, e.metadata.category, now);
      FitsFewer(lim, HardOf(before - {e.key}, now), after - {e.key}, e.metadata.category, e.byteSize);
    }
  }

  /** An unexpired pinned entry leaves only by removal or replacement of its own key; no entry appears or changes but the stored one. */
  lemma OthersKept(lim: Limits, before: Entries, after: Entries, e: Entry, now: nat, r: Result<(), StoreError>, k: string)
    requires Outcome(lim, before, after, e, now, r) && k != e.key
    ensures k in before && before[k].Hard(now) ==> k in after
    ensures k in after ==> k in before && after[k] == before[k]
  {
    assert Unfold(0);
    assert OutcomeBody(lim, before, after, e, now, r);
    if r.Ok? {
      assert DroppedBody(before - {e.key}, after - {e.key}, e.metadata.category, now);
      assert k in after <==> k in after - {e.key};
    }
  }

  lemma DroppedSub(base: Entries, cur: Entries, cat: Category, now: nat)
    requires DroppedBody(base, cur, cat, now)
    ensures Sub(cur, base)
  {
  }

  lemma FittingIsSmall(lim: Limits, entries: Entries, cat: Category, size: nat)
    requires Fits(lim, entries, cat, size)
    ensures !TooBig(lim, cat, size)
  {
  }

  lemma NothingDropped(lim: Limits, base: Entries, cur: Entries, cat: Category, size: nat)
    requires Sub(cur, base) && LastNeeded(lim, base, cur, cat, size) && Fits(lim, base, cat, size)
    ensures cur == base
  {
    hide Fits;
    if cur != base {
      var k :| k in base && k !in cur && !Fits(lim, cur[k := base[k]], cat, size);
      FitsFewer(lim, cur[k := base[k]], base, cat, size);
      assert false;
    }
  }

  /** Where the entry fits beside the others, nothing is evicted. */
  lemma NothingEvicted(lim: Limits, before: Entries, after: Entries, e: Entry, now: nat, r: Result<(), StoreError>)
    requires Outcome(lim, before, after, e, now, r)
    requires Fits(lim, before - {e.key}, e.metadata.category, e.byteSize)
    ensures r.Ok? && after == before[e.key := e]
  {
    hide Fits, LastNeeded, TooBig, DroppedBody;
    var base := before - {e.key};
    FittingIsSmall(lim, base, e.metadata.category, e.byteSize);
    assert Unfold(0);
    assert OutcomeBody(lim, before, after, e, now, r);
    FitsFewer(lim, HardOf(base, now), base, e.metadata.category, e.byteSize);
    RefusedIff(lim, before, after, e, now, r);
    var cur := after - {e.key};
    assert DroppedBody(base, cur, e.metadata.category, now);
    assert Sub(cur, base) by { DroppedSub(base, cur, e.metadata.category, now); }
    NothingDropped(lim, base, cur, e.metadata.category, e.byteSize);
    PutBack(after, e.key);
    assert before[e.key := e] == base[e.key := e];
  }

  /** Replacing an entry within its category by one no larger never evicts another entry and never fails. */
  lemma ReplaceNeverEvicts(lim: Limits, before: Entries, after: Entries, e: Entry, now: nat, r: Result<(), StoreError>)
    requires Outcome(lim, before, after, e, now, r) && Within(lim, before)
    requires e.key in before && before[e.key].metadata.category == e.metadata.category && e.byteSize <= before[e.key].byteSize
    ensures r.Ok? && after == before[e.key := e]
  {
    assert Unfold(0);
    assert BytesIn(before, e.metadata.category) <= lim.CategoryBudget(e.metadata.category);
    BytesTake(before, e.key, e.metadata.category);
    NothingEvicted(lim, before, after, e, now, r);
  }

  /** The queried entries: each live entry under `keys` once, in any order. */
  ghost predicate Lists(r: seq<Entry>, entries: Entries, keys: set<string>, now: nat) {
    && (forall i {:trigger r[i]} :: 0 <= i < |r| ==> r[i].key in keys && r[i].key in entries && entries[r[i].key] == r[i] && !r[i].Expired(now))
    && (forall k :: k in keys && k in entries && !entries[k].Expired(now) ==> entries[k] in r)
    && (forall i, j :: 0 <= i < j < |r| ==> r[i].key != r[j].key)
  }

  // ---------------------------------------------------------------- the store

  class Store {
    var entries: map<string, Entry>
    const limits: Limits
    var bytesUsed: nat
    var categoryBytes: map<Category, nat>
    var byCategory: map<Category, set<string>>
    var byTag: map<string, set<string>>

    function S(): State
      reads this
    {
      State(entries, bytesUsed, categoryBytes, byCategory, byTag)
    }

    ghost predicate Valid()
      reads this
    {
      Consistent(S()) && Within(limits, entries)
    }

    constructor WithBudget(maxEntries: nat, byteBudget: nat, categoryBudgets: map<Category, nat>)
      ensures Valid() && entries == map[] && limits == Limits(maxEntries, byteBudget, categoryBudgets)
    {
      limits := Limits(maxEntries, byteBudget, categoryBudgets);
      entries, bytesUsed, categoryBytes, byCategory, byTag := map[], 0, map[], map[], map[];
      new;
      EmptyConsistent(S(), limits);
    }

    /** Drops an entry with its bytes and index keys. */
    method RemoveInternal(key: string) returns (found: bool)
      modifies this
      ensures found == (key in old(entries))
      ensures S() == if found then Removed(old(S()), key) else old(S())
    {
      if key !in entries {
        return false;
      }
      var e := entries[key];
      var cat := e.metadata.category;
      entries := entries - {key};
      bytesUsed := if bytesUsed >= e.byteSize then bytesUsed - e.byteSize else 0;
      if cat in categoryBytes {
        var b := categoryBytes[cat];
        categoryBytes := categoryBytes[cat := if b >= e.byteSize then b - e.byteSize else 0];
      }
      if cat in byCategory {
        byCategory := byCategory[cat := byCategory[cat] - {key}];
      }
      var i := 0;
      while i < |e.metadata.tags|
        invariant 0 <= i <= |e.metadata.tags|
        invariant byTag == Untagged(old(byTag), e.metadata.tags, key, i)
        invariant S() == Removed(old(S()), key).(byTag := byTag)
      {
        var tag := e.metadata.tags[i];
        if tag in byTag {
          byTag := byTag[tag := byTag[tag] - {key}];
        }
        i := i + 1;
      }
      found := true;
    }

    method Remove(key: string) returns (found: bool)
      requires Valid()
      modifies this
      ensures Valid()
      ensures found == (key in old(entries)) && entries == old(entries) - {key}
    {
      found := RemoveInternal(key);
      if found {
        RemovedConsistent(old(S()), key);
        WithinTake(limits, entries, old(entries));
      }
    }

    /** Reads a live entry and counts the access. */
    method Get(key: string, now: nat) returns (r: Option<Entry>)
      requires Valid()
      modifies this
      ensures Valid()
      ensures r.Some? <==> key in old(entries) && !old(entries)[key].Expired(now)
      ensures r.Some? <==> key in old(entries) && (old(entries)[key].expiresAt.Some? ==> now < old(entries)[key].expiresAt.value)
      ensures r.Some? ==> r.value == Touched(old(entries)[key])
      ensures entries == if r.Some? then old(entries)[key := r.value] else old(entries)
    {
      if key in entries {
        if entries[key].Expired(now) {
          return None;
        }
        var e := entries[key];
        e := e.(accessCount := e.accessCount + 1);
        e := e.(relevance := if e.relevance + 0.1 < 1.0 then e.relevance + 0.1 else 1.0);
        entries := entries[key := e];
        TouchedConsistent(old(S()), limits, key);
        return Some(e);
      }
      r := None;
    }

    /** The live entries under an index set, in whatever order the set is walked. */
    method Collect(keys: set<string>, now: nat) returns (r: seq<Entry>)
      requires Valid()
      ensures Lists(r, entries, keys, now)
    {
      r := [];
      assert Unfold(0) && ConsistentBody(S());
      var todo := keys;
      while todo != {}
        invariant todo <= keys
        invariant Lists(r, entries, keys - todo, now)
        decreases todo
      {
        var k :| k in todo;
        todo := todo - {k};
        if k in entries && !entries[k].Expired(now) {
          assert WellFormed(entries[k], k);
          r := r + [entries[k]];
        }
      }
      assert keys - todo == keys;
    }

    /** Exactly the live entries of the category. */
    method QueryByCategory(cat: Category, now: nat) returns (r: seq<Entry>)
      requires Valid()
      ensures Lists(r, entries, KeysIn(entries, cat), now)
    {
      assert Unfold(0) && ConsistentBody(S());
      assert SetOf(byCategory, cat) == KeysIn(entries, cat);
      if cat in byCategory {
        r := Collect(byCategory[cat], now);
      } else {
        r := [];
      }
    }

    /** Exactly the live entries carrying the tag. */
    method QueryByTag(tag: string, now: nat) returns (r: seq<Entry>)
      requires Valid()
      ensures Lists(r, entries, KeysTagged(entries, tag), now)
    {
      assert Unfold(0) && ConsistentBody(S());
      assert SetOf(byTag, tag) == KeysTagged(entries, tag);
      if tag in byTag {
        r := Collect(byTag[tag], now);
      } else {
        r := [];
      }
    }

    /** Drops some expired entry, if there is one. */
    method DropOneExpired(now: nat) returns (dropped: bool)
      requires Valid()
      modifies this
      ensures Valid()
      ensures dropped ==> exists k :: k in old(entries) && old(entries)[k].Expired(now) && entries == old(entries) - {k}
      ensures !dropped ==> entries == old(entries) && forall k :: k in entries ==> !entries[k].Expired(now)
    {
      if k :| k in entries && entries[k].Expired(now) {
        dropped := Remove(k);
      } else {
        dropped := false;
      }
    }

    /** An unpinned entry of lowest relevance, in one category or in all. */
    method LowestScoreKey(only: Option<Category>) returns (r: Option<string>)
      ensures r.None? <==> forall k :: k in entries ==> !Evictable(entries[k], only)
      ensures r.Some? ==> r.value in entries && Evictable(entries[r.value], only)
      ensures r.Some? ==> forall k :: k in entries && Evictable(entries[k], only) ==> entries[r.value].relevance <= entries[k].relevance
    {
      r := None;
      var todo := entries.Keys;
      while todo != {}
        invariant todo <= entries.Keys
        invariant r.None? <==> forall k :: k in entries.Keys - todo ==> !Evictable(entries[k], only)
        invariant r.Some? ==> r.value in entries && Evictable(entries[r.value], only)
        invariant r.Some? ==> forall k :: k in entries.Keys - todo && Evictable(entries[k], only) ==> entries[r.value].relevance <= entries[k].relevance
        decreases todo
      {
        var k :| k in todo;
        todo := todo - {k};
        if Evictable(entries[k], only) && (r.None? || entries[k].relevance < entries[r.value].relevance) {
          r := Some(k);
        }
      }
    }

    /** Evicts one unpinned entry, from the preferred category while that has one. */
    method EvictOne(prefer: Option<Category>) returns (evicted: bool)
      requires Valid()
      modifies this
      ensures Valid()
      ensures evicted ==> exists k :: && k in old(entries) && !old(entries)[k].pinned && entries == old(entries) - {k}
                                      && (prefer.Some? && old(entries)[k].metadata.category != prefer.value ==>
                                            forall j :: j in old(entries) && old(entries)[j].metadata.category == prefer.value ==> old(entries)[j].pinned)
      ensures !evicted ==> entries == old(entries) && forall k :: k in entries ==> entries[k].pinned
    {
      if prefer.Some? {
        var key := LowestScoreKey(prefer);
        if key.Some? {
          evicted := Remove(key.value);
          return;
        }
        assert forall k :: k in entries ==> !Evictable(entries[k], prefer);
      }
      var key := LowestScoreKey(None);
      if key.Some? {
        assert Evictable(entries[key.value], None);
        evicted := Remove(key.value);
        return;
      }
      assert forall k :: k in entries ==> !Evictable(entries[k], None);
      evicted := false;
    }

    /** One round of the loop that makes room. */
    method DropSome(cat: Category, now: nat) returns (dropped: bool)
      requires Valid()
      modifies this
      ensures Valid()
      ensures dropped ==> exists k :: MayDrop(old(entries), k, cat, now) && entries == old(entries) - {k}
      ensures !dropped ==> entries == old(entries) && forall k :: k in entries ==> entries[k].Hard(now)
    {
      dropped := DropOneExpired(now);
      if dropped {
        return;
      }
      dropped := EvictOne(Some(cat));
    }

    /** Drops entries until the new one fits, or finds that only pinned live ones are left. */
    method MakeRoom(cat: Category, size: nat, now: nat) returns (ok: bool)
      requires Valid()
      modifies this
      ensures Valid()
      ensures RoomMade(limits, old(entries), entries, cat, size, now, ok)
    {
      RoomStart(limits, entries, cat, size, now);
      while true
        invariant Valid()
        invariant Shrunk(limits, old(entries), entries, cat, size, now)
        decreases |entries|
      {
        var categoryUsed := NumOf(categoryBytes, cat);
        var fitsTotal := bytesUsed + size <= limits.byteBudget;
        var fitsCategory := categoryUsed + size <= limits.CategoryBudget(cat);
        var fitsCount := |entries| < limits.maxEntries;
        FitsCounted(S(), limits, cat, size);
        if fitsTotal && fitsCategory && fitsCount {
          RoomFound(limits, old(entries), entries, cat, size, now);
          return true;
        }
        ghost var cur := entries;
        var dropped := DropSome(cat, now);
        if !dropped {
          RoomRefused(limits, old(entries), entries, cat, size, now);
          return false;
        }
        RoomStep(limits, old(entries), cur, entries, cat, size, now);
      }
    }

    /** Stores an entry, replacing one under the same key and evicting others as needed. */
    method StoreWithOptions(key: string, vector: seq<real>, metadata: Metadata, options: StoreOptions, now: nat) returns (r: Result<(), StoreError>)
      requires Valid()
      modifies this
      ensures Valid()
      ensures Outcome(limits, old(entries), entries, NewEntry(key, vector, metadata, options, now), now, r)
      ensures r == Err(Oversize) <==>
              || 4 * |vector| > limits.byteBudget
              || (metadata.category in limits.categoryBudgets && 4 * |vector| > limits.categoryBudgets[metadata.category])
    {
      var size := 4 * |vector|;
      var cat := metadata.category;
      ghost var e := NewEntry(key, vector, metadata, options, now);
      if size > limits.CategoryBudget(cat) || size > limits.byteBudget {
        return Err(Oversize);
      }
      if key in entries {
        var _ := Remove(key);
      }
      assert entries == old(entries) - {key};
      ghost var base := entries;
      var ok := MakeRoom(cat, size, now);
      if !ok {
        RefusedOutcome(limits, old(entries), base, entries, e, now);
        return Err(Full);
      }
      ghost var cur := entries;
      KeyStaysOut(limits, base, cur, cat, size, now, key);
      Insert(key, vector, metadata, options, now);
      StoredOutcome(limits, old(entries), base, cur, entries, e, now);
      r := Ok(());
    }

    /** Enters a new entry into the map, the counters and both indexes. */
    method Insert(key: string, vector: seq<real>, metadata: Metadata, options: StoreOptions, now: nat)
      requires Consistent(S()) && key !in entries
      modifies this
      ensures S() == Inserted(old(S()), NewEntry(key, vector, metadata, options, now))
      ensures Consistent(S())
    {
      var size := 4 * |vector|;
      var cat := metadata.category;
      var expiresAt := if options.ttlSeconds.Some? then Some(now + options.ttlSeconds.value) else None;
      var entry := Entry(key, vector, metadata, now, 0, 1.0, expiresAt, options.pinned, size);
      byCategory := byCategory[cat := SetOf(byCategory, cat) + {key}];
      var i := 0;
      while i < |metadata.tags|
        invariant 0 <= i <= |metadata.tags|
        invariant byTag == Tagged(old(byTag), metadata.tags, key, i)
        invariant S() == old(S()).(byCategory := byCategory, byTag := byTag)
        invariant byCategory == old(byCategory)[cat := SetOf(old(byCategory), cat) + {key}]
      {
        var tag := metadata.tags[i];
        byTag := byTag[tag := SetOf(byTag, tag) + {key}];
        i := i + 1;
      }
      bytesUsed := bytesUsed + size;
      categoryBytes := categoryBytes[cat := NumOf(categoryBytes, cat) + size];
      entries := entries[key := entry];
      InsertedConsistent(old(S()), entry);
    }
  }

  /** The entry a store call builds: pinned and expiring as asked, never yet read. */
  function NewEntry(key: string, vector: seq<real>, metadata: Metadata, options: StoreOptions, now: nat): Entry {
    Entry(key, vector, metadata, now, 0, 1.0,
          if options.ttlSeconds.Some? then Some(now + options.ttlSeconds.value) else None,
          options.pinned, 4 * |vector|)
  }

  predicate Evictable(e: Entry, only: Option<Category>) {
    !e.pinned && (only.Some? ==> e.metadata.category == only.value)
  }

  /** A read counts; the score is already at its cap. */
  function Touched(e: Entry): Entry {
    e.(accessCount := e.accessCount + 1)
  }

  lemma EmptyBytes(cat: Category)
    ensures Bytes(map[]) == 0 && BytesIn(map[], cat) == 0
  {
    assert Sizes(map[]) == map[];
    assert SizesIn(map[], cat) == map[];
  }

  lemma EmptyConsistent(s: State, lim: Limits)
    requires s == State(map[], 0, map[], map[], map[])
    ensures Consistent(s) && Within(lim, s.entries)
  {
    EmptyBytes(Finding);
    forall cat ensures BytesIn(map[], cat) == 0 {
      EmptyBytes(cat);
    }
  }

  lemma TouchedConsistent(s: State, lim: Limits, key: string)
    requires Consistent(s) && Within(lim, s.entries) && key in s.entries
    ensures var e := s.entries[key];
            && Touched(e) == e.(accessCount := e.accessCount + 1).(relevance := if e.relevance + 0.1 < 1.0 then e.relevance + 0.1 else 1.0)
            && Consistent(s.(entries := s.entries[key := Touched(e)])) && Within(lim, s.entries[key := Touched(e)])
  {
    assert Unfold(0);
    var next := s.entries[key := Touched(s.entries[key])];
    assert WellFormed(s.entries[key], key);
    assert Sizes(next) == Sizes(s.entries);
    forall cat ensures BytesIn(next, cat) == BytesIn(s.entries, cat) && KeysIn(next, cat) == KeysIn(s.entries, cat) {
      assert SizesIn(next, cat) == SizesIn(s.entries, cat);
    }
    forall tag ensures KeysTagged(next, tag) == KeysTagged(s.entries, tag) {
    }
    assert next.Keys == s.entries.Keys;
    assert |next| == |next.Keys| == |s.entries|;
  }
}
