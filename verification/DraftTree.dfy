/**
 Token-tree drafting: n-gram continuations ranked by frequency and recency, a best-first tree grown
 from them under a node budget, and how far a target continuation can be followed in a tree.
 */
module DraftTree {
  import opened Wrappers
  import opened KvModel

  // ---------------------------------------------------------------- n-gram continuations

  /** `key` occurs at s and is followed by t. */
  predicate Follows(haystack: seq<Token>, key: seq<Token>, s: nat, t: Token) {
    s + |key| < |haystack| && haystack[s..s + |key|] == key && haystack[s + |key|] == t
  }

  /** How often t follows the key at a start below n. */
  ghost function Count(haystack: seq<Token>, key: seq<Token>, t: Token, n: nat): nat {
    if n == 0 then 0
    else Count(haystack, key, t, n - 1) + if Follows(haystack, key, n - 1, t) then 1 else 0
  }

  /** The latest start below n at which t follows the key. */
  ghost function LastSeen(haystack: seq<Token>, key: seq<Token>, t: Token, n: nat): (r: Option<nat>)
    ensures r.Some? ==> r.value < n && Follows(haystack, key, r.value, t)
  {
    if n == 0 then None
    else if Follows(haystack, key, n - 1, t) then Some(n - 1)
    else LastSeen(haystack, key, t, n - 1)
  }

  lemma {:induction false} SeenIffCounted(haystack: seq<Token>, key: seq<Token>, t: Token, n: nat)
    ensures LastSeen(haystack, key, t, n).Some? <==> Count(haystack, key, t, n) > 0
    ensures LastSeen(haystack, key, t, n).Some? <==> exists s :: 0 <= s < n && Follows(haystack, key, s, t)
  {
    if n > 0 {
      SeenIffCounted(haystack, key, t, n - 1);
      if s :| 0 <= s < n && Follows(haystack, key, s, t) {
        assert s == n - 1 || s < n - 1;
      }
    }
  }

  /** A continuation of the key: how often and how recently it followed. */
  datatype Stat = Stat(count: nat, last: nat)

  /** The statistics of every continuation at starts below n. */
  ghost predicate StatsOf(stats: map<Token, Stat>, haystack: seq<Token>, key: seq<Token>, n: nat) {
    && (forall t :: t in stats <==> Count(haystack, key, t, n) > 0)
    && (forall t :: t in stats ==>
          stats[t].count == Count(haystack, key, t, n) && LastSeen(haystack, key, t, n) == Some(stats[t].last))
  }

  /** More frequent first, then more recent. */
  predicate Before(stats: map<Token, Stat>, a: Token, b: Token)
    requires a in stats && b in stats
  {
    stats[a].count > stats[b].count || (stats[a].count == stats[b].count && stats[a].last > stats[b].last)
  }

  /** Two continuations last seen at the same start are the same token, so the order is strict and total. */
  lemma BeforeTotal(stats: map<Token, Stat>, haystack: seq<Token>, key: seq<Token>, n: nat, a: Token, b: Token)
    requires StatsOf(stats, haystack, key, n) && a in stats && b in stats
    ensures a == b || Before(stats, a, b) || Before(stats, b, a)
    ensures !(Before(stats, a, b) && Before(stats, b, a))
  {
    assert LastSeen(haystack, key, a, n) == Some(stats[a].last);
    assert LastSeen(haystack, key, b, n) == Some(stats[b].last);
  }

  ghost predicate Sorted(stats: map<Token, Stat>, v: seq<Token>) {
    && (forall i :: 0 <= i < |v| ==> v[i] in stats)
    && (forall i, j :: 0 <= i < j < |v| ==> Before(stats, v[i], v[j]))
  }

  /** All continuations, in rank order. */
  ghost predicate Ranking(stats: map<Token, Stat>, v: seq<Token>) {
    Sorted(stats, v) && forall t :: t in stats <==> t in v
  }

  /** The ranking does not depend on the order in which the map was enumerated: there is only one. */
  lemma {:induction false} RankingUnique(stats: map<Token, Stat>, v: seq<Token>, w: seq<Token>)
    requires Sorted(stats, v) && Sorted(stats, w) && forall t :: t in v <==> t in w
    ensures v == w
    decreases |v|
  {
    assert |w| > 0 ==> w[0] in w && w[0] in v;
    assert |v| > 0 ==> v[0] in v && v[0] in w;
    if v != [] {
      assert v[0] in w && w != [] && w[0] in v;
      var i :| 0 <= i < |w| && w[i] == v[0];
      var j :| 0 <= j < |v| && v[j] == w[0];
      assert v[0] == w[0];
      TailTokens(stats, v);
      TailTokens(stats, w);
      RankingUnique(stats, v[1..], w[1..]);
    }
  }

  lemma TailTokens(stats: map<Token, Stat>, v: seq<Token>)
    requires Sorted(stats, v) && v != []
    ensures forall t :: t in v[1..] <==> t in v && t != v[0]
  {
    forall t | t in v && t != v[0] ensures t in v[1..] {
      var i :| 0 <= i < |v| && v[i] == t;
      assert v[1..][i - 1] == t;
    }
  }

  /** Where t belongs in a ranked list. */
  method InsertRanked(stats: map<Token, Stat>, v: seq<Token>, t: Token, ghost haystack: seq<Token>, ghost key: seq<Token>, ghost n: nat)
    returns (w: seq<Token>)
    requires StatsOf(stats, haystack, key, n) && Sorted(stats, v) && t in stats && t !in v
    ensures Sorted(stats, w) && forall x :: x in w <==> x in v || x == t
  {
    var i := 0;
    while i < |v| && Before(stats, v[i], t)
      invariant i <= |v| && forall j :: 0 <= j < i ==> Before(stats, v[j], t)
    {
      i := i + 1;
    }
    if i < |v| {
      BeforeTotal(stats, haystack, key, n, v[i], t);
    }
    InsertedSorted(stats, v, i, t);
    w := v[..i] + [t] + v[i..];
  }

  lemma InsertedSorted(stats: map<Token, Stat>, v: seq<Token>, i: nat, t: Token)
    requires Sorted(stats, v) && t in stats && i <= |v|
    requires forall j :: 0 <= j < i ==> Before(stats, v[j], t)
    requires i < |v| ==> Before(stats, t, v[i])
    ensures Sorted(stats, v[..i] + [t] + v[i..])
    ensures forall x :: x in v[..i] + [t] + v[i..] <==> x in v || x == t
  {
    assert v == v[..i] + v[i..];
    var w := v[..i] + [t] + v[i..];
    forall a, b | 0 <= a < b < |w| ensures Before(stats, w[a], w[b]) {
      if b > i {
        assert w[b] == v[b - 1];
        if a >= i {
          assert b - 1 == i || Before(stats, v[i], v[b - 1]);
        }
      }
    }
  }

  /** How many starts there are. */
  function Starts(haystack: seq<Token>, key: seq<Token>): nat {
    if |haystack| > |key| then |haystack| - |key| else 0
  }

  /** The `branch` best-ranked continuations, each with how often it followed. */
  ghost predicate TopRanked(haystack: seq<Token>, key: seq<Token>, branch: nat, v: seq<(Token, nat)>) {
    exists stats: map<Token, Stat>, all: seq<Token> :: TopOf(stats, all, haystack, key, branch, v)
  }

  ghost predicate TopOf(stats: map<Token, Stat>, all: seq<Token>, haystack: seq<Token>, key: seq<Token>, branch: nat, v: seq<(Token, nat)>) {
    && StatsOf(stats, haystack, key, Starts(haystack, key)) && Ranking(stats, all)
    && |v| == Min(branch, |all|)
    && forall i :: 0 <= i < |v| ==> v[i].0 == all[i] && v[i].1 == stats[all[i]].count
  }

  /** a followed the key more often than b, or as often and more recently. */
  ghost predicate Outranks(haystack: seq<Token>, key: seq<Token>, a: Token, b: Token) {
    var n := Starts(haystack, key);
    && LastSeen(haystack, key, a, n).Some? && LastSeen(haystack, key, b, n).Some?
    && (|| Count(haystack, key, a, n) > Count(haystack, key, b, n)
        || (&& Count(haystack, key, a, n) == Count(haystack, key, b, n)
            && LastSeen(haystack, key, a, n).value > LastSeen(haystack, key, b, n).value))
  }

  /** v lists tokens that followed the key, with how often, each outranking the next; one is left out only for `branch` better ones. */
  ghost predicate MostFrequent(haystack: seq<Token>, key: seq<Token>, branch: nat, v: seq<(Token, nat)>) {
    && |v| <= branch
    && (forall i :: 0 <= i < |v| ==> v[i].1 == Count(haystack, key, v[i].0, Starts(haystack, key)) && v[i].1 > 0)
    && (forall i, j :: 0 <= i < j < |v| ==> Outranks(haystack, key, v[i].0, v[j].0))
    && (forall t :: Count(haystack, key, t, Starts(haystack, key)) > 0 && (forall i :: 0 <= i < |v| ==> v[i].0 != t) ==>
          |v| == branch && forall i :: 0 <= i < |v| ==> Outranks(haystack, key, v[i].0, t))
  }

  lemma BeforeOutranks(stats: map<Token, Stat>, haystack: seq<Token>, key: seq<Token>, a: Token, b: Token)
    requires StatsOf(stats, haystack, key, Starts(haystack, key)) && a in stats && b in stats && Before(stats, a, b)
    ensures Outranks(haystack, key, a, b)
  {
    assert LastSeen(haystack, key, a, Starts(haystack, key)) == Some(stats[a].last);
    assert LastSeen(haystack, key, b, Starts(haystack, key)) == Some(stats[b].last);
  }

  lemma TopIsMostFrequent(stats: map<Token, Stat>, all: seq<Token>, haystack: seq<Token>, key: seq<Token>, branch: nat, v: seq<(Token, nat)>)
    requires TopOf(stats, all, haystack, key, branch, v)
    ensures MostFrequent(haystack, key, branch, v)
  {
    hide Outranks, Before;
    forall i, j | 0 <= i < j < |v| ensures Outranks(haystack, key, v[i].0, v[j].0) {
      BeforeOutranks(stats, haystack, key, all[i], all[j]);
    }
    forall i | 0 <= i < |v| ensures v[i].1 == Count(haystack, key, v[i].0, Starts(haystack, key)) && v[i].1 > 0 {
      assert all[i] in all;
    }
    forall t | Count(haystack, key, t, Starts(haystack, key)) > 0 && forall i :: 0 <= i < |v| ==> v[i].0 != t
      ensures |v| == branch && forall i :: 0 <= i < |v| ==> Outranks(haystack, key, v[i].0, t) {
      assert t in stats && t in all;
      var k :| 0 <= k < |all| && all[k] == t;
      assert k >= |v|;
      forall i | 0 <= i < |v| ensures Outranks(haystack, key, v[i].0, t) {
        BeforeOutranks(stats, haystack, key, all[i], all[k]);
      }
    }
  }

  /** The continuations of `key` in rank order, with their counts, at most `branch` of them. */
  method NgramContinuations(haystack: seq<Token>, key: seq<Token>, branch: nat) returns (v: seq<(Token, nat)>)
    ensures key == [] || branch == 0 ==> v == []
    ensures key != [] && branch > 0 ==> TopRanked(haystack, key, branch, v) && MostFrequent(haystack, key, branch, v)
  {
    hide MostFrequent;
    if key == [] || |haystack| <= |key| || branch == 0 {
      assert key != [] && branch > 0 ==> TopOf(map[], [], haystack, key, branch, []);
      if key != [] && branch > 0 {
        TopIsMostFrequent(map[], [], haystack, key, branch, []);
      }
      return [];
    }
    var stats := CollectStats(haystack, key);
    var all := Rank(stats, haystack, key, |haystack| - |key|);
    v := [];
    while |v| < branch && |v| < |all|
      invariant |v| <= Min(branch, |all|)
      invariant forall i :: 0 <= i < |v| ==> v[i].0 == all[i] && v[i].1 == stats[all[i]].count
    {
      v := v + [(all[|v|], stats[all[|v|]].count)];
    }
    assert TopOf(stats, all, haystack, key, branch, v);
    TopIsMostFrequent(stats, all, haystack, key, branch, v);
  }

  method CollectStats(haystack: seq<Token>, key: seq<Token>) returns (stats: map<Token, Stat>)
    requires key != [] && |haystack| > |key|
    ensures StatsOf(stats, haystack, key, |haystack| - |key|)
  {
    stats := map[];
    var start := 0;
    while start < |haystack| - |key|
      invariant start <= |haystack| - |key| && StatsOf(stats, haystack, key, start)
    {
      StatsNext(stats, haystack, key, start);
      if haystack[start..start + |key|] == key {
        var nxt := haystack[start + |key|];
        stats := stats[nxt := Stat((if nxt in stats then stats[nxt].count else 0) + 1, start)];
      }
      start := start + 1;
    }
  }

  lemma StatsNext(stats: map<Token, Stat>, haystack: seq<Token>, key: seq<Token>, start: nat)
    requires start + |key| < |haystack| && StatsOf(stats, haystack, key, start)
    ensures var nxt := haystack[start + |key|];
            StatsOf(if haystack[start..start + |key|] == key
                    then stats[nxt := Stat((if nxt in stats then stats[nxt].count else 0) + 1, start)] else stats,
                    haystack, key, start + 1)
  {
  }

  /** Sorts the map's tokens, taken in any order. */
  method Rank(stats: map<Token, Stat>, ghost haystack: seq<Token>, ghost key: seq<Token>, ghost n: nat) returns (all: seq<Token>)
    requires StatsOf(stats, haystack, key, n)
    ensures Ranking(stats, all)
  {
    all := [];
    var todo := stats.Keys;
    while todo != {}
      invariant todo <= stats.Keys && Sorted(stats, all)
      invariant forall t :: t in all <==> t in stats && t !in todo
    {
      var t :| t in todo;
      all := InsertRanked(stats, all, t, haystack, key, n);
      todo := todo - {t};
    }
  }

  // ---------------------------------------------------------------- longest n-gram first

  /** t followed the occurrence at s of the last len tokens of `recent`. */
  ghost predicate Occurs(haystack: seq<Token>, recent: seq<Token>, len: nat, s: nat, t: Token) {
    len <= |recent| && Follows(haystack, recent[|recent| - len..], s, t)
  }

  /** t followed some earlier occurrence of the last n-gram of `recent`, for an allowed n-gram length. */
  ghost predicate Edge(haystack: seq<Token>, recent: seq<Token>, maxLen: nat, t: Token) {
    exists len: nat, s: nat :: 2 <= len <= Max(maxLen, 2) && Occurs(haystack, recent, len, s, t)
  }

  /** The continuations of the last n-gram of length len. */
  ghost predicate FromLength(haystack: seq<Token>, recent: seq<Token>, len: nat, branch: nat, c: seq<(Token, nat)>) {
    2 <= len <= |recent| && branch > 0 && TopRanked(haystack, recent[|recent| - len..], branch, c)
  }

  /** No longer allowed n-gram has a continuation. */
  ghost predicate NoneLonger(haystack: seq<Token>, recent: seq<Token>, len: nat, maxLen: nat) {
    forall n: nat, s: nat, t :: len < n <= Max(maxLen, 2) ==> !Occurs(haystack, recent, n, s, t)
  }

  lemma NoneRanked(haystack: seq<Token>, key: seq<Token>, branch: nat, s: nat, t: Token)
    requires branch > 0 && TopRanked(haystack, key, branch, [])
    ensures !Follows(haystack, key, s, t)
  {
    var stats: map<Token, Stat>, all: seq<Token> :| TopOf(stats, all, haystack, key, branch, []);
    assert all == [];
    SeenIffCounted(haystack, key, t, Starts(haystack, key));
  }

  lemma RankedFollows(haystack: seq<Token>, key: seq<Token>, branch: nat, c: seq<(Token, nat)>, i: nat)
    requires TopRanked(haystack, key, branch, c) && i < |c|
    ensures exists s: nat :: Follows(haystack, key, s, c[i].0)
    ensures c[i].1 > 0 && forall j :: 0 <= j < |c| && j != i ==> c[j].0 != c[i].0
  {
    var stats: map<Token, Stat>, all: seq<Token> :| TopOf(stats, all, haystack, key, branch, c);
    SeenIffCounted(haystack, key, c[i].0, Starts(haystack, key));
    forall j | 0 <= j < |c| && j != i ensures c[j].0 != c[i].0 {
      if j < i {
        assert Before(stats, all[j], all[i]);
      } else {
        assert Before(stats, all[i], all[j]);
      }
    }
  }

  /** The ranked continuations of the longest allowed n-gram that has any. */
  ghost predicate IsBest(haystack: seq<Token>, recent: seq<Token>, maxLen: nat, branch: nat, c: seq<(Token, nat)>) {
    && (c == [] ==> branch == 0 || NoneLonger(haystack, recent, 1, maxLen))
    && (c != [] ==> exists len: nat ::
          len <= Max(maxLen, 2) && FromLength(haystack, recent, len, branch, c) && NoneLonger(haystack, recent, len, maxLen))
  }

  lemma StatsUnique(a: map<Token, Stat>, b: map<Token, Stat>, haystack: seq<Token>, key: seq<Token>, n: nat)
    requires StatsOf(a, haystack, key, n) && StatsOf(b, haystack, key, n)
    ensures a == b
  {
    forall t | t in a ensures t in b && a[t] == b[t] {
      assert LastSeen(haystack, key, t, n) == Some(a[t].last);
      assert LastSeen(haystack, key, t, n) == Some(b[t].last);
    }
  }

  lemma TopUnique(haystack: seq<Token>, key: seq<Token>, branch: nat, c: seq<(Token, nat)>, d: seq<(Token, nat)>)
    requires TopRanked(haystack, key, branch, c) && TopRanked(haystack, key, branch, d)
    ensures c == d
  {
    var s: map<Token, Stat>, v: seq<Token> :| TopOf(s, v, haystack, key, branch, c);
    var t: map<Token, Stat>, w: seq<Token> :| TopOf(t, w, haystack, key, branch, d);
    StatsUnique(s, t, haystack, key, Starts(haystack, key));
    forall x ensures x in v <==> x in w {
      assert x in s <==> x in v;
      assert x in t <==> x in w;
    }
    RankingUnique(s, v, w);
    forall i | 0 <= i < |c| ensures c[i] == d[i] {
    }
  }

  lemma SomeOccurs(haystack: seq<Token>, recent: seq<Token>, len: nat, branch: nat, c: seq<(Token, nat)>)
    requires FromLength(haystack, recent, len, branch, c) && c != []
    ensures exists s: nat :: Occurs(haystack, recent, len, s, c[0].0)
  {
    RankedFollows(haystack, recent[|recent| - len..], branch, c, 0);
    var s: nat :| Follows(haystack, recent[|recent| - len..], s, c[0].0);
    assert Occurs(haystack, recent, len, s, c[0].0);
  }

  lemma NotShorter(haystack: seq<Token>, recent: seq<Token>, maxLen: nat, branch: nat, c: seq<(Token, nat)>, m: nat, n: nat)
    requires FromLength(haystack, recent, m, branch, c) && c != [] && m <= Max(maxLen, 2) && NoneLonger(haystack, recent, n, maxLen)
    ensures m <= n
  {
    SomeOccurs(haystack, recent, m, branch, c);
    var s: nat :| Occurs(haystack, recent, m, s, c[0].0);
  }

  lemma FromUnique(haystack: seq<Token>, recent: seq<Token>, len: nat, branch: nat, c: seq<(Token, nat)>, d: seq<(Token, nat)>)
    requires FromLength(haystack, recent, len, branch, c) && FromLength(haystack, recent, len, branch, d)
    ensures c == d
  {
    TopUnique(haystack, recent[|recent| - len..], branch, c, d);
  }

  /** There is one such list, so the order in which the counts were enumerated does not show. */
  lemma BestUnique(haystack: seq<Token>, recent: seq<Token>, maxLen: nat, branch: nat, c: seq<(Token, nat)>, d: seq<(Token, nat)>)
    requires IsBest(haystack, recent, maxLen, branch, c) && IsBest(haystack, recent, maxLen, branch, d)
    ensures c == d
  {
    hide TopRanked, NoneLonger;
    if c != [] {
      var m: nat :| m <= Max(maxLen, 2) && FromLength(haystack, recent, m, branch, c) && NoneLonger(haystack, recent, m, maxLen);
      if d != [] {
        var n: nat :| n <= Max(maxLen, 2) && FromLength(haystack, recent, n, branch, d) && NoneLonger(haystack, recent, n, maxLen);
        NotShorter(haystack, recent, maxLen, branch, c, m, n);
        NotShorter(haystack, recent, maxLen, branch, d, n, m);
        FromUnique(haystack, recent, m, branch, c, d);
      } else {
        NotShorter(haystack, recent, maxLen, branch, c, m, 1);
      }
    } else if d != [] {
      var n: nat :| n <= Max(maxLen, 2) && FromLength(haystack, recent, n, branch, d) && NoneLonger(haystack, recent, n, maxLen);
      NotShorter(haystack, recent, maxLen, branch, d, n, 1);
    }
  }

  /** The best continuations of the longest n-gram that has any. */
  method BestContinuations(haystack: seq<Token>, recent: seq<Token>, maxLen: nat, branch: nat) returns (c: seq<(Token, nat)>)
    ensures IsBest(haystack, recent, maxLen, branch, c)
  {
    var len := Max(maxLen, 2);
    while len >= 2
      invariant 1 <= len <= Max(maxLen, 2)
      invariant branch == 0 || NoneLonger(haystack, recent, len, maxLen)
    {
      if |recent| >= len {
        var key := recent[|recent| - len..];
        c := NgramContinuations(haystack, key, branch);
        if c != [] {
          assert FromLength(haystack, recent, len, branch, c);
          return;
        }
        if branch > 0 {
          forall s: nat, t ensures !Occurs(haystack, recent, len, s, t) {
            NoneRanked(haystack, key, branch, s, t);
          }
        }
      }
      len := len - 1;
    }
    return [];
  }

  /** Its tokens are distinct edges with positive counts. */
  ghost predicate Children(haystack: seq<Token>, recent: seq<Token>, maxLen: nat, branch: nat, c: seq<(Token, nat)>) {
    |c| <= branch && forall i {:trigger c[i]} :: 0 <= i < |c| ==> ChildOk(haystack, recent, maxLen, c, i)
  }

  ghost predicate ChildOk(haystack: seq<Token>, recent: seq<Token>, maxLen: nat, c: seq<(Token, nat)>, i: nat)
    requires i < |c|
  {
    && Edge(haystack, recent, maxLen, c[i].0) && c[i].1 > 0
    && forall j :: 0 <= j < |c| && j != i ==> c[j].0 != c[i].0
  }

  lemma ChildrenOf(haystack: seq<Token>, recent: seq<Token>, maxLen: nat, branch: nat, c: seq<(Token, nat)>)
    requires IsBest(haystack, recent, maxLen, branch, c)
    ensures Children(haystack, recent, maxLen, branch, c)
  {
    if c != [] {
      var len: nat :| len <= Max(maxLen, 2) && FromLength(haystack, recent, len, branch, c);
      forall i | 0 <= i < |c| ensures ChildOk(haystack, recent, maxLen, c, i) {
        RankedChild(haystack, recent, maxLen, branch, c, len, i);
      }
    }
  }

  lemma RankedChild(haystack: seq<Token>, recent: seq<Token>, maxLen: nat, branch: nat, c: seq<(Token, nat)>, len: nat, i: nat)
    requires len <= Max(maxLen, 2) && FromLength(haystack, recent, len, branch, c) && i < |c|
    ensures ChildOk(haystack, recent, maxLen, c, i)
  {
    RankedFollows(haystack, recent[|recent| - len..], branch, c, i);
    var s: nat :| Follows(haystack, recent[|recent| - len..], s, c[i].0);
    assert Occurs(haystack, recent, len, s, c[i].0);
  }

  // ---------------------------------------------------------------- trees

  datatype TreeNode = TreeNode(token: Token, parent: nat, depth: nat)

  /** Parents come first, depths count edges from the root. */
  ghost predicate WellFormed(nodes: seq<TreeNode>) {
    && (nodes != [] ==> nodes[0].parent == 0 && nodes[0].depth == 0)
    && forall i :: 1 <= i < |nodes| ==> ParentOk(nodes, i)
  }

  ghost predicate ParentOk(nodes: seq<TreeNode>, i: nat)
    requires i < |nodes|
  {
    nodes[i].parent < i && nodes[i].depth == nodes[nodes[i].parent].depth + 1
  }

  /** No two children of a node carry the same token. */
  ghost predicate SiblingsApart(nodes: seq<TreeNode>) {
    forall i, j :: 1 <= i < j < |nodes| && nodes[i].parent == nodes[j].parent ==> nodes[i].token != nodes[j].token
  }

  /** The tokens from below the root to node idx. */
  ghost function Path(nodes: seq<TreeNode>, idx: nat): (p: seq<Token>)
    requires WellFormed(nodes) && idx < |nodes|
    ensures |p| == nodes[idx].depth
    decreases idx
  {
    if idx == 0 then []
    else
      assert ParentOk(nodes, idx);
      Path(nodes, nodes[idx].parent) + [nodes[idx].token]
  }

  method PathAfterRoot(nodes: seq<TreeNode>, idx: nat) returns (t: seq<Token>)
    requires WellFormed(nodes) && idx < |nodes|
    ensures t == Path(nodes, idx)
  {
    t := [];
    var i: nat := idx;
    while i != 0
      invariant i < |nodes| && Path(nodes, i) + t == Path(nodes, idx)
      decreases i
    {
      assert ParentOk(nodes, i);
      t := [nodes[i].token] + t;
      i := nodes[i].parent;
    }
  }

  lemma WellFormedPush(nodes: seq<TreeNode>, n: TreeNode)
    requires WellFormed(nodes) && nodes != [] && n.parent < |nodes| && n.depth == nodes[n.parent].depth + 1
    ensures WellFormed(nodes + [n])
  {
    var nodes' := nodes + [n];
    forall i | 1 <= i < |nodes'| ensures ParentOk(nodes', i) {
      if i < |nodes| {
        assert ParentOk(nodes, i);
      }
    }
  }

  /** Growing the tree changes no existing path. */
  lemma {:induction false} PathKept(nodes: seq<TreeNode>, more: seq<TreeNode>, idx: nat)
    requires WellFormed(nodes) && WellFormed(more) && nodes <= more && idx < |nodes|
    ensures Path(more, idx) == Path(nodes, idx)
    decreases idx
  {
    if idx > 0 {
      assert ParentOk(nodes, idx);
      PathKept(nodes, more, nodes[idx].parent);
    }
  }

  /** With distinct siblings a path leads to one node only. */
  lemma {:induction false} PathUnique(nodes: seq<TreeNode>, i: nat, j: nat)
    requires WellFormed(nodes) && SiblingsApart(nodes) && i < |nodes| && j < |nodes|
    requires Path(nodes, i) == Path(nodes, j)
    ensures i == j
    decreases i
  {
    if i > 0 {
      assert ParentOk(nodes, i);
      assert |Path(nodes, i)| > 0;
      assert j > 0;
      assert ParentOk(nodes, j);
      var p, q := Path(nodes, i), Path(nodes, j);
      assert p[..|p| - 1] == Path(nodes, nodes[i].parent);
      assert q[..|q| - 1] == Path(nodes, nodes[j].parent);
      PathUnique(nodes, nodes[i].parent, nodes[j].parent);
      assert p[|p| - 1] == nodes[i].token && q[|q| - 1] == nodes[j].token;
    }
  }

  /** Every prefix of a path is some ancestor's path. */
  lemma {:induction false} Ancestor(nodes: seq<TreeNode>, idx: nat, n: nat) returns (a: nat)
    requires WellFormed(nodes) && idx < |nodes| && n <= |Path(nodes, idx)|
    ensures a < |nodes| && Path(nodes, a) == Path(nodes, idx)[..n]
    decreases idx
  {
    var p := Path(nodes, idx);
    if n == |p| {
      a := idx;
    } else {
      assert ParentOk(nodes, idx);
      a := Ancestor(nodes, nodes[idx].parent, n);
      assert p[..n] == Path(nodes, nodes[idx].parent)[..n];
    }
  }

  // ---------------------------------------------------------------- growing the tree

  /** Every edge is an n-gram continuation of the committed tokens and the path above it. */
  ghost predicate EdgesOk(nodes: seq<TreeNode>, haystack: seq<Token>, recent: seq<Token>, maxLen: nat)
    requires WellFormed(nodes)
  {
    forall i {:trigger nodes[i]} :: 1 <= i < |nodes| ==> EdgeOk(nodes, haystack, recent, maxLen, i)
  }

  ghost predicate EdgeOk(nodes: seq<TreeNode>, haystack: seq<Token>, recent: seq<Token>, maxLen: nat, i: nat)
    requires WellFormed(nodes) && 1 <= i < |nodes|
  {
    ParentOk(nodes, i) && Edge(haystack, recent + Path(nodes, nodes[i].parent), maxLen, nodes[i].token)
  }

  /** A draft tree for `recent`. */
  ghost predicate TreeOk(nodes: seq<TreeNode>, haystack: seq<Token>, recent: seq<Token>, maxLen: nat) {
    && WellFormed(nodes) && SiblingsApart(nodes) && EdgesOk(nodes, haystack, recent, maxLen)
    && recent != [] && nodes != [] && nodes[0] == TreeNode(recent[|recent| - 1], 0, 0)
  }

  ghost predicate Childless(nodes: seq<TreeNode>, idx: nat) {
    forall i :: 1 <= i < |nodes| ==> nodes[i].parent != idx
  }

  /** Nodes not expanded yet, each once. */
  ghost predicate FrontierOk(nodes: seq<TreeNode>, frontier: seq<(real, nat)>) {
    && (forall f :: 0 <= f < |frontier| ==> frontier[f].1 < |nodes| && Childless(nodes, frontier[f].1))
    && (forall f, g :: 0 <= f < g < |frontier| ==> frontier[f].1 != frontier[g].1)
  }

  /** Adding a child whose token none of its siblings has. */
  lemma PushChild(nodes: seq<TreeNode>, haystack: seq<Token>, recent: seq<Token>, maxLen: nat, idx: nat, tok: Token)
    requires TreeOk(nodes, haystack, recent, maxLen) && idx < |nodes|
    requires Edge(haystack, recent + Path(nodes, idx), maxLen, tok)
    requires forall i :: 1 <= i < |nodes| && nodes[i].parent == idx ==> nodes[i].token != tok
    ensures var more := nodes + [TreeNode(tok, idx, nodes[idx].depth + 1)];
            TreeOk(more, haystack, recent, maxLen) && Path(more, idx) == Path(nodes, idx)
  {
    var n := TreeNode(tok, idx, nodes[idx].depth + 1);
    var more := nodes + [n];
    WellFormedPush(nodes, n);
    forall i | 1 <= i < |more| ensures EdgeOk(more, haystack, recent, maxLen, i) {
      assert ParentOk(more, i);
      if i < |nodes| {
        assert more[i] == nodes[i] && EdgeOk(nodes, haystack, recent, maxLen, i);
      }
      PathKept(nodes, more, more[i].parent);
    }
    PathKept(nodes, more, idx);
  }

  /** The frontier entry with the highest score, the last one among equals. */
  method BestIndex(frontier: seq<(real, nat)>) returns (bi: nat)
    requires frontier != []
    ensures bi < |frontier|
    ensures forall j :: 0 <= j < |frontier| ==> frontier[j].0 <= frontier[bi].0
    ensures forall j :: bi < j < |frontier| ==> frontier[j].0 < frontier[bi].0
  {
    bi := 0;
    var i := 1;
    while i < |frontier|
      invariant bi < i <= |frontier|
      invariant forall j :: 0 <= j < i ==> frontier[j].0 <= frontier[bi].0
      invariant forall j :: bi < j < i ==> frontier[j].0 < frontier[bi].0
    {
      if frontier[i].0 >= frontier[bi].0 {
        bi := i;
      }
      i := i + 1;
    }
  }

  /** The node being expanded: its children so far carry the first k continuations. */
  ghost predicate HasChildren(nodes: seq<TreeNode>, idx: nat, conts: seq<(Token, nat)>, k: nat)
    requires k <= |conts|
  {
    forall i :: 1 <= i < |nodes| && nodes[i].parent == idx ==> exists j :: 0 <= j < k && conts[j].0 == nodes[i].token
  }

  /** The first k continuations are on the frontier with their shares of the score. */
  ghost predicate Priced(frontier0: seq<(real, nat)>, frontier: seq<(real, nat)>, n: nat, score: real, conts: seq<(Token, nat)>, k: nat) {
    && k <= |conts| && frontier0 <= frontier && |frontier| == |frontier0| + k
    && forall j :: 0 <= j < k ==> frontier[|frontier0| + j] == (Share(score, conts[j].1, CountSum(conts, |conts|)), n + j)
  }

  lemma {:induction false} PricedNext(frontier0: seq<(real, nat)>, frontier: seq<(real, nat)>, n: nat, score: real, conts: seq<(Token, nat)>, k: nat)
    requires Priced(frontier0, frontier, n, score, conts, k) && k < |conts|
    ensures Priced(frontier0, frontier + [(Share(score, conts[k].1, CountSum(conts, |conts|)), n + k)], n, score, conts, k + 1)
  {
    hide Share, CountSum;
    var more := frontier + [(Share(score, conts[k].1, CountSum(conts, |conts|)), n + k)];
    forall j | 0 <= j < k + 1 ensures more[|frontier0| + j] == (Share(score, conts[j].1, CountSum(conts, |conts|)), n + j) {
      if j < k {
        assert more[|frontier0| + j] == frontier[|frontier0| + j];
      }
    }
  }

  /** Adds the continuations as children of idx while the budget lasts. */
  method Expand(nodes: seq<TreeNode>, frontier: seq<(real, nat)>, haystack: seq<Token>, recent: seq<Token>, maxLen: nat,
                branch: nat, maxNodes: nat, idx: nat, score: real, conts: seq<(Token, nat)>)
    returns (nodes': seq<TreeNode>, frontier': seq<(real, nat)>)
    requires TreeOk(nodes, haystack, recent, maxLen) && FrontierOk(nodes, frontier) && |nodes| <= maxNodes
    requires idx < |nodes| && Childless(nodes, idx) && forall f :: 0 <= f < |frontier| ==> frontier[f].1 != idx
    requires Children(haystack, recent + Path(nodes, idx), maxLen, branch, conts)
    ensures TreeOk(nodes', haystack, recent, maxLen) && FrontierOk(nodes', frontier')
    ensures nodes <= nodes' && |nodes'| == Min(maxNodes, |nodes| + |conts|)
    ensures forall j :: 0 <= j < |nodes'| - |nodes| ==>
        nodes'[|nodes| + j] == TreeNode(conts[j].0, idx, nodes[idx].depth + 1)
    ensures Priced(frontier, frontier', |nodes|, score, conts, |nodes'| - |nodes|)
  {
    RootedTree(nodes, haystack, recent, maxLen);
    hide *;
    nodes', frontier' := nodes, frontier;
    ExpandStart(nodes, frontier, haystack, recent, maxLen, idx, score, conts);
    var k := 0;
    while k < |conts| && |nodes'| < maxNodes
      invariant k <= |conts| && |nodes'| == |nodes| + k <= maxNodes
      invariant Expanding(nodes, nodes', frontier', haystack, recent, maxLen, idx, conts, k)
      invariant Priced(frontier, frontier', |nodes|, score, conts, k)
    {
      nodes', frontier' := AddChild(nodes, frontier, nodes', frontier', haystack, recent, maxLen, branch, idx, score, conts, k);
      k := k + 1;
    }
    ExpandEnd(nodes, nodes', frontier', haystack, recent, maxLen, idx, conts, k);
    assert |nodes'| == Min(maxNodes, |nodes| + |conts|) by {
      LesserOf(maxNodes, |nodes| + |conts|);
    }
  }

  lemma LesserOf(a: int, b: int)
    ensures Min(a, b) == if a <= b then a else b
  {
  }

  /** Continuation k becomes a child with its share of the score. */
  method AddChild(nodes0: seq<TreeNode>, frontier0: seq<(real, nat)>, nodes: seq<TreeNode>, frontier: seq<(real, nat)>,
                  ghost haystack: seq<Token>, ghost recent: seq<Token>, ghost maxLen: nat, ghost branch: nat, idx: nat, score: real,
                  conts: seq<(Token, nat)>, k: nat)
    returns (nodes': seq<TreeNode>, frontier': seq<(real, nat)>)
    requires WellFormed(nodes0) && idx < |nodes0| && k < |conts|
    requires Children(haystack, recent + Path(nodes0, idx), maxLen, branch, conts)
    requires Expanding(nodes0, nodes, frontier, haystack, recent, maxLen, idx, conts, k)
    requires Priced(frontier0, frontier, |nodes0|, score, conts, k) && |nodes| == |nodes0| + k
    ensures Expanding(nodes0, nodes', frontier', haystack, recent, maxLen, idx, conts, k + 1) && |nodes'| == |nodes| + 1
    ensures Priced(frontier0, frontier', |nodes0|, score, conts, k + 1)
  {
    hide *;
    var total := CountSum(conts, |conts|);
    var share, child := Share(score, conts[k].1, total), |nodes|;
    ExpandNext(nodes0, nodes, frontier, haystack, recent, maxLen, branch, idx, conts, k, share);
    PricedNext(frontier0, frontier, |nodes0|, score, conts, k);
    nodes' := nodes + [TreeNode(conts[k].0, idx, nodes0[idx].depth + 1)];
    frontier' := frontier + [(share, child)];
  }

  lemma RootedTree(nodes: seq<TreeNode>, haystack: seq<Token>, recent: seq<Token>, maxLen: nat)
    requires TreeOk(nodes, haystack, recent, maxLen)
    ensures WellFormed(nodes)
  {
  }

  lemma ExpandStart(nodes: seq<TreeNode>, frontier: seq<(real, nat)>, haystack: seq<Token>, recent: seq<Token>, maxLen: nat, idx: nat,
                    score: real, conts: seq<(Token, nat)>)
    requires TreeOk(nodes, haystack, recent, maxLen) && FrontierOk(nodes, frontier) && idx < |nodes|
    requires Childless(nodes, idx) && forall f :: 0 <= f < |frontier| ==> frontier[f].1 != idx
    ensures Expanding(nodes, nodes, frontier, haystack, recent, maxLen, idx, conts, 0)
    ensures Priced(frontier, frontier, |nodes|, score, conts, 0)
  {
  }

  lemma ExpandEnd(nodes0: seq<TreeNode>, nodes: seq<TreeNode>, frontier: seq<(real, nat)>, haystack: seq<Token>, recent: seq<Token>,
                  maxLen: nat, idx: nat, conts: seq<(Token, nat)>, k: nat)
    requires Expanding(nodes0, nodes, frontier, haystack, recent, maxLen, idx, conts, k)
    ensures TreeOk(nodes, haystack, recent, maxLen) && FrontierOk(nodes, frontier) && nodes0 <= nodes
    ensures forall j :: 0 <= j < k ==> nodes[|nodes0| + j] == TreeNode(conts[j].0, idx, nodes0[idx].depth + 1)
  {
  }

  /** A child's path score: its parent's times its share of the counts. */
  function Share(score: real, count: nat, total: nat): real {
    score * (count as real / Max(total, 1) as real)
  }

  /** The first k continuations have become children of idx. */
  ghost predicate Expanding(nodes0: seq<TreeNode>, nodes: seq<TreeNode>, frontier: seq<(real, nat)>, haystack: seq<Token>,
                            recent: seq<Token>, maxLen: nat, idx: nat, conts: seq<(Token, nat)>, k: nat) {
    && k <= |conts| && idx < |nodes0| && nodes0 <= nodes && |nodes| == |nodes0| + k
    && WellFormed(nodes0) && TreeOk(nodes, haystack, recent, maxLen) && Path(nodes, idx) == Path(nodes0, idx)
    && (forall j :: 0 <= j < k ==> nodes[|nodes0| + j] == TreeNode(conts[j].0, idx, nodes0[idx].depth + 1))
    && HasChildren(nodes, idx, conts, k)
    && FrontierOk(nodes, frontier) && (forall f :: 0 <= f < |frontier| ==> frontier[f].1 != idx)
  }

  lemma {:induction false} ExpandNext(nodes0: seq<TreeNode>, nodes: seq<TreeNode>, frontier: seq<(real, nat)>, haystack: seq<Token>,
                   recent: seq<Token>, maxLen: nat, branch: nat, idx: nat, conts: seq<(Token, nat)>, k: nat, share: real)
    requires WellFormed(nodes0) && idx < |nodes0| && k < |conts|
    requires Children(haystack, recent + Path(nodes0, idx), maxLen, branch, conts)
    requires Expanding(nodes0, nodes, frontier, haystack, recent, maxLen, idx, conts, k)
    ensures var n := TreeNode(conts[k].0, idx, nodes0[idx].depth + 1);
            Expanding(nodes0, nodes + [n], frontier + [(share, |nodes|)], haystack, recent, maxLen, idx, conts, k + 1)
  {
    hide Edge, EdgesOk, SiblingsApart, Childless, Path;
    assert ChildOk(haystack, recent + Path(nodes0, idx), maxLen, conts, k);
    assert nodes[idx] == nodes0[idx];
    PushChild(nodes, haystack, recent, maxLen, idx, conts[k].0);
    PushFrontier(nodes, frontier, idx, conts[k].0, share);
  }

  /** The counts of the first n continuations together. */
  function CountSum(conts: seq<(Token, nat)>, n: nat): nat
    requires n <= |conts|
  {
    if n == 0 then 0 else CountSum(conts, n - 1) + conts[n - 1].1
  }

  /** The path scores of the first n continuations together. */
  ghost function ShareSum(score: real, conts: seq<(Token, nat)>, n: nat): real
    requires n <= |conts|
  {
    if n == 0 then 0.0 else ShareSum(score, conts, n - 1) + Share(score, conts[n - 1].1, CountSum(conts, |conts|))
  }

  lemma {:induction false} ShareSumIs(score: real, conts: seq<(Token, nat)>, n: nat)
    requires n <= |conts| && CountSum(conts, |conts|) > 0
    ensures ShareSum(score, conts, n) * CountSum(conts, |conts|) as real == score * CountSum(conts, n) as real
  {
    var t := CountSum(conts, |conts|) as real;
    hide Share;
    if n > 0 {
      ShareSumIs(score, conts, n - 1);
      ShareOf(score, conts[n - 1].1, CountSum(conts, |conts|));
      Distribute(ShareSum(score, conts, n - 1), Share(score, conts[n - 1].1, CountSum(conts, |conts|)), t,
                 score, CountSum(conts, n - 1) as real, conts[n - 1].1 as real);
    }
  }

  lemma Distribute(x: real, y: real, t: real, score: real, c: real, d: real)
    requires x * t == score * c && y * t == score * d
    ensures (x + y) * t == score * (c + d)
  {
  }

  lemma ShareOf(score: real, count: nat, total: nat)
    requires total > 0
    ensures Share(score, count, total) * total as real == score * count as real
  {
    Quotient(score, count as real, total as real);
  }

  lemma Quotient(score: real, c: real, t: real)
    requires t > 0.0
    ensures score * (c / t) * t == score * c
  {
    assert c / t * t == c;
    assert score * (c / t) * t == score * (c / t * t);
  }

  /** A node hands its whole score down: its continuations' scores add up to it, each in proportion to its count. */
  lemma {:induction false} SharesAddUp(score: real, conts: seq<(Token, nat)>)
    requires CountSum(conts, |conts|) > 0
    ensures ShareSum(score, conts, |conts|) == score
    ensures forall i, j :: 0 <= i < |conts| && 0 <= j < |conts| ==>
        var total := CountSum(conts, |conts|);
        Share(score, conts[i].1, total) * conts[j].1 as real == Share(score, conts[j].1, total) * conts[i].1 as real
  {
    hide Share, ShareSum, CountSum;
    var total := CountSum(conts, |conts|);
    ShareSumIs(score, conts, |conts|);
    Cancel(ShareSum(score, conts, |conts|), score, total as real);
    forall i, j | 0 <= i < |conts| && 0 <= j < |conts|
      ensures Share(score, conts[i].1, total) * conts[j].1 as real == Share(score, conts[j].1, total) * conts[i].1 as real {
      SharesInProportion(score, conts[i].1, conts[j].1, total);
    }
  }

  lemma SharesInProportion(score: real, a: nat, b: nat, total: nat)
    requires total > 0
    ensures Share(score, a, total) * b as real == Share(score, b, total) * a as real
  {
    InProportion(score, a as real, b as real, total as real);
  }

  lemma InProportion(score: real, a: real, b: real, t: real)
    requires t > 0.0
    ensures score * (a / t) * b == score * (b / t) * a
  {
    Quotient(score, a, t);
    Quotient(score, b, t);
    var x, y := score * (a / t) * b, score * (b / t) * a;
    assert x * t == score * (a / t) * t * b == score * a * b;
    assert y * t == score * (b / t) * t * a == score * b * a;
    Cancel(x, y, t);
  }

  lemma Cancel(x: real, y: real, t: real)
    requires t > 0.0 && x * t == y * t
    ensures x == y
  {
    assert (x - y) * t == 0.0;
  }

  lemma PushFrontier(nodes: seq<TreeNode>, frontier: seq<(real, nat)>, idx: nat, tok: Token, score: real)
    requires WellFormed(nodes) && FrontierOk(nodes, frontier) && idx < |nodes|
    requires forall f :: 0 <= f < |frontier| ==> frontier[f].1 != idx
    ensures FrontierOk(nodes + [TreeNode(tok, idx, nodes[idx].depth + 1)], frontier + [(score, |nodes|)])
  {
    var more := nodes + [TreeNode(tok, idx, nodes[idx].depth + 1)];
    forall f | 0 <= f < |frontier| ensures Childless(more, frontier[f].1) {
      assert Childless(nodes, frontier[f].1);
    }
    forall i | 1 <= i < |more| ensures more[i].parent != |nodes| {
      if i < |nodes| {
        assert ParentOk(nodes, i);
      }
    }
  }

  // ---------------------------------------------------------------- best first

  /** One expansion: the node and its ranked continuations. */
  datatype Expansion = Expansion(idx: nat, conts: seq<(Token, nat)>)

  /** How many of n continuations fit the budget beside p nodes. */
  function Fitting(p: nat, n: nat, maxNodes: nat): nat {
    if maxNodes <= p then 0 else Min(maxNodes - p, n)
  }

  /** The tree after the expansions: each node's continuations in rank order, as far as the budget goes. */
  ghost function NodesOf(root: Token, exps: seq<Expansion>, maxNodes: nat): (nodes: seq<TreeNode>)
    ensures nodes != []
  {
    if exps == [] then [TreeNode(root, 0, 0)]
    else
      var prior := NodesOf(root, exps[..|exps| - 1], maxNodes);
      prior + Kids(prior, exps[|exps| - 1], maxNodes)
  }

  ghost function Kids(prior: seq<TreeNode>, e: Expansion, maxNodes: nat): (kids: seq<TreeNode>)
    ensures |kids| == Fitting(|prior|, |e.conts|, maxNodes)
  {
    var depth := if e.idx < |prior| then prior[e.idx].depth + 1 else 0;
    seq(Fitting(|prior|, |e.conts|, maxNodes), j requires 0 <= j < Fitting(|prior|, |e.conts|, maxNodes) =>
      TreeNode(e.conts[j].0, e.idx, depth))
  }

  /** The nodes' path scores: one at the root, then each step's share of the counts. */
  ghost function ScoresOf(exps: seq<Expansion>, maxNodes: nat): (scores: seq<real>)
    ensures scores != []
  {
    if exps == [] then [1.0]
    else
      var prior := ScoresOf(exps[..|exps| - 1], maxNodes);
      prior + KidScores(prior, exps[|exps| - 1], maxNodes)
  }

  ghost function KidScores(prior: seq<real>, e: Expansion, maxNodes: nat): (kids: seq<real>)
    ensures |kids| == Fitting(|prior|, |e.conts|, maxNodes)
  {
    var score := if e.idx < |prior| then prior[e.idx] else 0.0;
    seq(Fitting(|prior|, |e.conts|, maxNodes), j requires 0 <= j < Fitting(|prior|, |e.conts|, maxNodes) =>
      score * (e.conts[j].1 as real / Max(CountSum(e.conts, |e.conts|), 1) as real))
  }

  lemma {:induction false} OneScoreEach(root: Token, exps: seq<Expansion>, maxNodes: nat)
    ensures |NodesOf(root, exps, maxNodes)| == |ScoresOf(exps, maxNodes)|
  {
    if exps != [] {
      OneScoreEach(root, exps[..|exps| - 1], maxNodes);
    }
  }

  ghost predicate Expanded(exps: seq<Expansion>, f: nat) {
    exists e :: 0 <= e < |exps| && exps[e].idx == f
  }

  /** idx is the open node of highest score, the latest added among equals. */
  ghost predicate IsNext(scores: seq<real>, exps: seq<Expansion>, idx: nat) {
    && idx < |scores| && !Expanded(exps, idx)
    && forall f :: 0 <= f < |scores| && !Expanded(exps, f) ==> scores[f] < scores[idx] || (scores[f] == scores[idx] && f <= idx)
  }

  /** Expansion e was due: budget left, the best open node, and its ranked continuations. */
  ghost predicate Due(haystack: seq<Token>, recent: seq<Token>, maxLen: nat, branch: nat, maxNodes: nat, exps: seq<Expansion>, e: nat)
    requires recent != [] && e < |exps|
  {
    var nodes := NodesOf(recent[|recent| - 1], exps[..e], maxNodes);
    && branch > 0 && |nodes| < maxNodes
    && IsNext(ScoresOf(exps[..e], maxNodes), exps[..e], exps[e].idx)
    && WellFormed(nodes) && exps[e].idx < |nodes|
    && IsBest(haystack, recent + Path(nodes, exps[e].idx), maxLen, branch, exps[e].conts)
  }

  ghost predicate BestFirst(haystack: seq<Token>, recent: seq<Token>, maxLen: nat, branch: nat, maxNodes: nat, exps: seq<Expansion>)
    requires recent != []
  {
    forall e {:trigger Due(haystack, recent, maxLen, branch, maxNodes, exps, e)} :: 0 <= e < |exps| ==>
      Due(haystack, recent, maxLen, branch, maxNodes, exps, e)
  }

  /** The budget is used up or no node is open. */
  ghost predicate Finished(root: Token, exps: seq<Expansion>, branch: nat, maxNodes: nat) {
    var n := |NodesOf(root, exps, maxNodes)|;
    n >= maxNodes || branch == 0 || forall f :: 0 <= f < n ==> Expanded(exps, f)
  }

  /** The next open node is determined. */
  lemma NextUnique(scores: seq<real>, exps: seq<Expansion>, i: nat, j: nat)
    requires IsNext(scores, exps, i) && IsNext(scores, exps, j)
    ensures i == j
  {
  }

  /** Two best-first runs agree as far as both go. */
  lemma {:induction false} SameExpansions(haystack: seq<Token>, recent: seq<Token>, maxLen: nat, branch: nat, maxNodes: nat,
                                          a: seq<Expansion>, b: seq<Expansion>, n: nat)
    requires recent != [] && n <= |a| && n <= |b|
    requires BestFirst(haystack, recent, maxLen, branch, maxNodes, a) && BestFirst(haystack, recent, maxLen, branch, maxNodes, b)
    ensures a[..n] == b[..n]
  {
    hide NodesOf, ScoresOf, IsNext, IsBest, WellFormed, Path;
    if n > 0 {
      SameExpansions(haystack, recent, maxLen, branch, maxNodes, a, b, n - 1);
      var e := n - 1;
      assert Due(haystack, recent, maxLen, branch, maxNodes, a, e) && Due(haystack, recent, maxLen, branch, maxNodes, b, e);
      NextUnique(ScoresOf(a[..e], maxNodes), a[..e], a[e].idx, b[e].idx);
      var nodes := NodesOf(recent[|recent| - 1], a[..e], maxNodes);
      BestUnique(haystack, recent + Path(nodes, a[e].idx), maxLen, branch, a[e].conts, b[e].conts);
      assert a[..n] == a[..e] + [a[e]] && b[..n] == b[..e] + [b[e]];
    }
  }

  /** A finished run cannot be the beginning of a longer one. */
  lemma NoLonger(haystack: seq<Token>, recent: seq<Token>, maxLen: nat, branch: nat, maxNodes: nat, a: seq<Expansion>, b: seq<Expansion>)
    requires recent != [] && |a| < |b| && a == b[..|a|]
    requires BestFirst(haystack, recent, maxLen, branch, maxNodes, b)
    ensures !Finished(recent[|recent| - 1], a, branch, maxNodes)
  {
    assert Due(haystack, recent, maxLen, branch, maxNodes, b, |a|);
    OneScoreEach(recent[|recent| - 1], a, maxNodes);
  }

  /** The tree is determined by its inputs: the counts' enumeration order and equal scores leave no choice. */
  lemma {:induction false} TreeUnique(haystack: seq<Token>, recent: seq<Token>, maxLen: nat, branch: nat, maxNodes: nat, a: seq<Expansion>, b: seq<Expansion>)
    requires recent != []
    requires BestFirst(haystack, recent, maxLen, branch, maxNodes, a) && BestFirst(haystack, recent, maxLen, branch, maxNodes, b)
    requires Finished(recent[|recent| - 1], a, branch, maxNodes) && Finished(recent[|recent| - 1], b, branch, maxNodes)
    ensures a == b && NodesOf(recent[|recent| - 1], a, maxNodes) == NodesOf(recent[|recent| - 1], b, maxNodes)
  {
    var n := if |a| <= |b| then |a| else |b|;
    SameExpansions(haystack, recent, maxLen, branch, maxNodes, a, b, n);
    assert a[..|a|] == a && b[..|b|] == b;
    if |a| < |b| {
      NoLonger(haystack, recent, maxLen, branch, maxNodes, a, b);
    } else if |b| < |a| {
      NoLonger(haystack, recent, maxLen, branch, maxNodes, b, a);
    }
  }

  /** The frontier lists the open nodes with their scores, in the order they were added. */
  ghost predicate Opens(frontier: seq<(real, nat)>, scores: seq<real>, exps: seq<Expansion>) {
    && (forall e :: 0 <= e < |exps| ==> exps[e].idx < |scores|)
    && (forall f :: 0 <= f < |frontier| ==> frontier[f].1 < |scores| && frontier[f].0 == scores[frontier[f].1] && !Expanded(exps, frontier[f].1))
    && (forall f, g :: 0 <= f < g < |frontier| ==> frontier[f].1 < frontier[g].1)
    && (forall i :: 0 <= i < |scores| && !Expanded(exps, i) ==> exists f :: 0 <= f < |frontier| && frontier[f].1 == i)
  }

  lemma OpenScore(frontier: seq<(real, nat)>, scores: seq<real>, exps: seq<Expansion>, f: nat)
    requires Opens(frontier, scores, exps) && f < |frontier|
    ensures frontier[f].1 < |scores| && scores[frontier[f].1] == frontier[f].0
  {
  }

  lemma BestIsNext(frontier: seq<(real, nat)>, scores: seq<real>, exps: seq<Expansion>, bi: nat)
    requires Opens(frontier, scores, exps) && bi < |frontier|
    requires forall j :: 0 <= j < |frontier| ==> frontier[j].0 <= frontier[bi].0
    requires forall j :: bi < j < |frontier| ==> frontier[j].0 < frontier[bi].0
    ensures IsNext(scores, exps, frontier[bi].1)
  {
  }

  /** `more` is `rest` and then nodes n, n + 1, ... with the given scores. */
  ghost predicate Appended(rest: seq<(real, nat)>, more: seq<(real, nat)>, n: nat, kids: seq<real>) {
    rest <= more && |more| == |rest| + |kids| && forall j :: 0 <= j < |kids| ==> more[|rest| + j] == (kids[j], n + j)
  }

  lemma PricedAppended(rest: seq<(real, nat)>, more: seq<(real, nat)>, scores: seq<real>, x: Expansion, maxNodes: nat)
    requires x.idx < |scores| && Priced(rest, more, |scores|, scores[x.idx], x.conts, Fitting(|scores|, |x.conts|, maxNodes))
    ensures Appended(rest, more, |scores|, KidScores(scores, x, maxNodes))
  {
    var kids := KidScores(scores, x, maxNodes);
    forall j | 0 <= j < |kids| ensures more[|rest| + j] == (kids[j], |scores| + j) {
      KidScore(scores, x, maxNodes, j);
      hide Share, CountSum, KidScores;
    }
  }

  lemma KidScore(prior: seq<real>, e: Expansion, maxNodes: nat, j: nat)
    requires e.idx < |prior| && j < Fitting(|prior|, |e.conts|, maxNodes)
    ensures j < |e.conts| && KidScores(prior, e, maxNodes)[j] == Share(prior[e.idx], e.conts[j].1, CountSum(e.conts, |e.conts|))
  {
  }

  /** The expanded node is taken out and its children are added. */
  lemma OpensNext(frontier: seq<(real, nat)>, prior: seq<real>, exps: seq<Expansion>, bi: nat, e: Expansion, kids: seq<real>,
                  more: seq<(real, nat)>)
    requires Opens(frontier, prior, exps) && bi < |frontier| && e.idx == frontier[bi].1
    requires Appended(frontier[..bi] + frontier[bi + 1..], more, |prior|, kids)
    ensures Opens(more, prior + kids, exps + [e])
  {
    hide Expanded, Appended;
    forall f ensures Expanded(exps + [e], f) <==> Expanded(exps, f) || f == e.idx {
      ExpandedAppend(exps, e, f);
    }
    ListedOnly(frontier, prior, exps, bi, e, kids, more);
    OpensListed(frontier, prior, exps, bi, e, kids, more);
  }

  lemma {:induction false} ScoresNext(exps: seq<Expansion>, e: Expansion, maxNodes: nat)
    ensures ScoresOf(exps + [e], maxNodes) == ScoresOf(exps, maxNodes) + KidScores(ScoresOf(exps, maxNodes), e, maxNodes)
  {
    assert (exps + [e])[..|exps|] == exps;
  }

  /** Entry f of the new frontier: an old one, or a child. */
  lemma EntryAt(frontier: seq<(real, nat)>, bi: nat, kids: seq<real>, n: nat, more: seq<(real, nat)>, f: nat)
    requires bi < |frontier| && Appended(frontier[..bi] + frontier[bi + 1..], more, n, kids) && f < |more|
    ensures |more| == |frontier| - 1 + |kids|
    ensures f < |frontier| - 1 ==> more[f] == frontier[if f < bi then f else f + 1]
    ensures f >= |frontier| - 1 ==> more[f] == (kids[f - (|frontier| - 1)], n + (f - (|frontier| - 1)))
  {
    var rest := frontier[..bi] + frontier[bi + 1..];
    if f < |rest| {
      assert more[f] == rest[f];
    } else {
      var j := f - |rest|;
      assert more[|rest| + j] == (kids[j], n + j);
    }
  }

  lemma ListedOnly(frontier: seq<(real, nat)>, prior: seq<real>, exps: seq<Expansion>, bi: nat, e: Expansion, kids: seq<real>,
                   more: seq<(real, nat)>)
    requires Opens(frontier, prior, exps) && bi < |frontier| && e.idx == frontier[bi].1
    requires forall f :: Expanded(exps + [e], f) <==> Expanded(exps, f) || f == e.idx
    requires Appended(frontier[..bi] + frontier[bi + 1..], more, |prior|, kids)
    ensures forall f :: 0 <= f < |more| ==>
              more[f].1 < |prior| + |kids| && more[f].0 == (prior + kids)[more[f].1] && !Expanded(exps + [e], more[f].1)
    ensures forall f, g :: 0 <= f < g < |more| ==> more[f].1 < more[g].1
  {
    hide Appended;
    forall f | 0 <= f < |more|
      ensures more[f].1 < |prior| + |kids| && more[f].0 == (prior + kids)[more[f].1] && !Expanded(exps + [e], more[f].1)
    {
      EntryAt(frontier, bi, kids, |prior|, more, f);
    }
    forall f, g | 0 <= f < g < |more| ensures more[f].1 < more[g].1 {
      EntryAt(frontier, bi, kids, |prior|, more, f);
      EntryAt(frontier, bi, kids, |prior|, more, g);
    }
  }

  /** Every open node is listed. */
  lemma OpensListed(frontier: seq<(real, nat)>, prior: seq<real>, exps: seq<Expansion>, bi: nat, e: Expansion, kids: seq<real>,
                    more: seq<(real, nat)>)
    requires Opens(frontier, prior, exps) && bi < |frontier| && e.idx == frontier[bi].1
    requires forall f :: Expanded(exps + [e], f) <==> Expanded(exps, f) || f == e.idx
    requires Appended(frontier[..bi] + frontier[bi + 1..], more, |prior|, kids)
    ensures forall i :: 0 <= i < |prior| + |kids| && !Expanded(exps + [e], i) ==> exists f :: 0 <= f < |more| && more[f].1 == i
  {
    var rest := frontier[..bi] + frontier[bi + 1..];
    forall i | 0 <= i < |prior| + |kids| && !Expanded(exps + [e], i) ensures exists f :: 0 <= f < |more| && more[f].1 == i {
      if i < |prior| {
        var g :| 0 <= g < |frontier| && frontier[g].1 == i;
        var f := if g < bi then g else g - 1;
        assert rest[f] == frontier[g];
        assert more[f] == rest[f];
      } else {
        var j := i - |prior|;
        assert more[|rest| + j] == (kids[j], |prior| + j);
      }
    }
  }

  lemma ExpandedAppend(exps: seq<Expansion>, e: Expansion, f: nat)
    ensures Expanded(exps + [e], f) <==> Expanded(exps, f) || f == e.idx
  {
    var all := exps + [e];
    assert all[|exps|] == e;
    if i :| 0 <= i < |exps| && exps[i].idx == f {
      assert all[i].idx == f;
    }
  }

  /** The children of one expansion are the next ones due. */
  lemma {:induction false} DueNext(haystack: seq<Token>, recent: seq<Token>, maxLen: nat, branch: nat, maxNodes: nat, exps: seq<Expansion>, x: Expansion,
                nodes: seq<TreeNode>)
    requires recent != [] && BestFirst(haystack, recent, maxLen, branch, maxNodes, exps)
    requires nodes == NodesOf(recent[|recent| - 1], exps, maxNodes) && WellFormed(nodes) && x.idx < |nodes| < maxNodes && branch > 0
    requires IsNext(ScoresOf(exps, maxNodes), exps, x.idx) && IsBest(haystack, recent + Path(nodes, x.idx), maxLen, branch, x.conts)
    ensures BestFirst(haystack, recent, maxLen, branch, maxNodes, exps + [x])
  {
    var all := exps + [x];
    forall e | 0 <= e < |all| ensures Due(haystack, recent, maxLen, branch, maxNodes, all, e) {
      assert all[..e] == exps[..e];
      if e < |exps| {
        assert Due(haystack, recent, maxLen, branch, maxNodes, exps, e);
      } else {
        assert exps[..e] == exps;
      }
    }
  }

  /** The loop's state: the expansions so far, best first, make up the tree and its frontier. */
  ghost predicate Growing(nodes: seq<TreeNode>, frontier: seq<(real, nat)>, haystack: seq<Token>, recent: seq<Token>, maxLen: nat,
                          branch: nat, maxNodes: nat, exps: seq<Expansion>) {
    forall n :: Unfold(n) ==>
      && recent != [] && BestFirst(haystack, recent, maxLen, branch, maxNodes, exps)
      && nodes == NodesOf(recent[|recent| - 1], exps, maxNodes) && Opens(frontier, ScoresOf(exps, maxNodes), exps)
  }

  lemma GrowingStart(haystack: seq<Token>, recent: seq<Token>, maxLen: nat, branch: nat, maxNodes: nat)
    requires recent != []
    ensures Growing([TreeNode(recent[|recent| - 1], 0, 0)], [(1.0, 0)], haystack, recent, maxLen, branch, maxNodes, [])
  {
    var frontier: seq<(real, nat)> := [(1.0, 0)];
    assert frontier[0].1 == 0;
    assert Opens(frontier, ScoresOf([], maxNodes), []);
  }

  lemma {:induction false} GrowingNext(nodes: seq<TreeNode>, frontier: seq<(real, nat)>, haystack: seq<Token>, recent: seq<Token>, maxLen: nat, branch: nat,
                    maxNodes: nat, exps: seq<Expansion>, bi: nat, conts: seq<(Token, nat)>, nodes': seq<TreeNode>, frontier': seq<(real, nat)>)
    requires Growing(nodes, frontier, haystack, recent, maxLen, branch, maxNodes, exps) && WellFormed(nodes)
    requires |nodes| < maxNodes && branch > 0 && bi < |frontier| && frontier[bi].1 < |nodes|
    requires forall j :: 0 <= j < |frontier| ==> frontier[j].0 <= frontier[bi].0
    requires forall j :: bi < j < |frontier| ==> frontier[j].0 < frontier[bi].0
    requires IsBest(haystack, recent + Path(nodes, frontier[bi].1), maxLen, branch, conts)
    requires nodes <= nodes' && |nodes'| == Min(maxNodes, |nodes| + |conts|)
    requires forall j :: 0 <= j < |nodes'| - |nodes| ==>
        nodes'[|nodes| + j] == TreeNode(conts[j].0, frontier[bi].1, nodes[frontier[bi].1].depth + 1)
    requires var rest := frontier[..bi] + frontier[bi + 1..];
             Priced(rest, frontier', |nodes|, frontier[bi].0, conts, |nodes'| - |nodes|)
    ensures Growing(nodes', frontier', haystack, recent, maxLen, branch, maxNodes, exps + [Expansion(frontier[bi].1, conts)])
  {
    hide BestFirst, Due, IsBest, IsNext, Priced, Appended, KidScores, NodesOf, ScoresOf, Opens, WellFormed, Path;
    assert Unfold(0);
    var x := Expansion(frontier[bi].1, conts);
    var root, scores := recent[|recent| - 1], ScoresOf(exps, maxNodes);
    OneScoreEach(root, exps, maxNodes);
    BestIsNext(frontier, scores, exps, bi);
    DueNext(haystack, recent, maxLen, branch, maxNodes, exps, x, nodes);
    NodesNext(root, exps, x, maxNodes, nodes, nodes');
    ScoresNext(exps, x, maxNodes);
    assert scores[x.idx] == frontier[bi].0 by {
      OpenScore(frontier, scores, exps, bi);
    }
    PricedAppended(frontier[..bi] + frontier[bi + 1..], frontier', scores, x, maxNodes);
    OpensNext(frontier, scores, exps, bi, x, KidScores(scores, x, maxNodes), frontier');
  }

  lemma {:induction false} NodesNext(root: Token, exps: seq<Expansion>, x: Expansion, maxNodes: nat, nodes: seq<TreeNode>, nodes': seq<TreeNode>)
    requires nodes == NodesOf(root, exps, maxNodes) && x.idx < |nodes| < maxNodes
    requires nodes <= nodes' && |nodes'| == Min(maxNodes, |nodes| + |x.conts|)
    requires forall j :: 0 <= j < |nodes'| - |nodes| ==> nodes'[|nodes| + j] == TreeNode(x.conts[j].0, x.idx, nodes[x.idx].depth + 1)
    ensures nodes' == NodesOf(root, exps + [x], maxNodes)
  {
    assert (exps + [x])[..|exps|] == exps;
    var kids := Kids(nodes, x, maxNodes);
    forall j | 0 <= j < |kids| ensures nodes'[|nodes| + j] == kids[j] {
    }
    assert nodes' == nodes + kids;
  }

  lemma {:induction false} GrowingEnds(nodes: seq<TreeNode>, frontier: seq<(real, nat)>, haystack: seq<Token>, recent: seq<Token>, maxLen: nat,
                    branch: nat, maxNodes: nat, exps: seq<Expansion>)
    requires Growing(nodes, frontier, haystack, recent, maxLen, branch, maxNodes, exps)
    requires |nodes| >= maxNodes || branch == 0 || frontier == []
    ensures recent != [] && BestFirst(haystack, recent, maxLen, branch, maxNodes, exps)
    ensures nodes == NodesOf(recent[|recent| - 1], exps, maxNodes) && Finished(recent[|recent| - 1], exps, branch, maxNodes)
  {
    assert Unfold(0);
    OneScoreEach(recent[|recent| - 1], exps, maxNodes);
  }

  /**
   Grows a tree under the last committed token, always expanding the most probable open node, the
   latest added among equals, with its continuations in rank order, until the budget is used up or no
   node is open. By `TreeUnique` that leaves one possible tree. Empty only when nothing has been
   committed; never more than maxNodes nodes, the root aside.
   */
  method LookupTree(haystack: seq<Token>, recent: seq<Token>, maxLen: nat, branch: nat, maxNodes: nat)
    returns (nodes: seq<TreeNode>, ghost exps: seq<Expansion>)
    ensures nodes == [] <==> recent == []
    ensures recent != [] ==> TreeOk(nodes, haystack, recent, maxLen) && |nodes| <= Max(1, maxNodes)
    ensures recent != [] ==>
      && BestFirst(haystack, recent, maxLen, branch, maxNodes, exps)
      && nodes == NodesOf(recent[|recent| - 1], exps, maxNodes)
      && Finished(recent[|recent| - 1], exps, branch, maxNodes)
  {
    if recent == [] {
      return [], [];
    }
    nodes, exps := [TreeNode(recent[|recent| - 1], 0, 0)], [];
    var frontier := [(1.0, 0)];
    GrowingStart(haystack, recent, maxLen, branch, maxNodes);
    if maxNodes <= 1 || branch == 0 {
      GrowingEnds(nodes, frontier, haystack, recent, maxLen, branch, maxNodes, exps);
      return;
    }
    while |nodes| < maxNodes && frontier != []
      invariant TreeOk(nodes, haystack, recent, maxLen) && FrontierOk(nodes, frontier) && |nodes| <= maxNodes
      invariant Growing(nodes, frontier, haystack, recent, maxLen, branch, maxNodes, exps)
      decreases maxNodes - |nodes|, |frontier|
    {
      nodes, frontier, exps := ExpandBest(nodes, frontier, haystack, recent, maxLen, branch, maxNodes, exps);
    }
    GrowingEnds(nodes, frontier, haystack, recent, maxLen, branch, maxNodes, exps);
  }

  /** Takes the best open node off the frontier and adds its continuations. */
  method ExpandBest(nodes: seq<TreeNode>, frontier: seq<(real, nat)>, haystack: seq<Token>, recent: seq<Token>, maxLen: nat, branch: nat,
                    maxNodes: nat, ghost exps: seq<Expansion>)
    returns (nodes': seq<TreeNode>, frontier': seq<(real, nat)>, ghost exps': seq<Expansion>)
    requires TreeOk(nodes, haystack, recent, maxLen) && FrontierOk(nodes, frontier) && |nodes| < maxNodes && branch > 0 && frontier != []
    requires Growing(nodes, frontier, haystack, recent, maxLen, branch, maxNodes, exps)
    ensures TreeOk(nodes', haystack, recent, maxLen) && FrontierOk(nodes', frontier') && |nodes'| <= maxNodes
    ensures Growing(nodes', frontier', haystack, recent, maxLen, branch, maxNodes, exps')
    ensures |nodes'| > |nodes| || (|nodes'| == |nodes| && |frontier'| < |frontier|)
  {
    hide Growing, EdgesOk, SiblingsApart, IsBest, Children;
    var bi := BestIndex(frontier);
    var score, idx := frontier[bi].0, frontier[bi].1;
    FrontierDrop(nodes, frontier, bi);
    var rest := frontier[..bi] + frontier[bi + 1..];
    var path := PathAfterRoot(nodes, idx);
    var conts := BestContinuations(haystack, recent + path, maxLen, branch);
    ChildrenOf(haystack, recent + path, maxLen, branch, conts);
    nodes', frontier' := Expand(nodes, rest, haystack, recent, maxLen, branch, maxNodes, idx, score, conts);
    exps' := exps + [Expansion(idx, conts)];
    GrowingNext(nodes, frontier, haystack, recent, maxLen, branch, maxNodes, exps, bi, conts, nodes', frontier');
  }

  lemma FrontierDrop(nodes: seq<TreeNode>, frontier: seq<(real, nat)>, bi: nat)
    requires FrontierOk(nodes, frontier) && bi < |frontier|
    ensures var rest := frontier[..bi] + frontier[bi + 1..];
            FrontierOk(nodes, rest) && forall f :: 0 <= f < |rest| ==> rest[f].1 != frontier[bi].1
  {
  }

  // ---------------------------------------------------------------- acceptance

  /** Some node's path is the first n tokens of the target. */
  ghost predicate Reaches(nodes: seq<TreeNode>, target: seq<Token>, n: nat)
    requires WellFormed(nodes) && n <= |target|
  {
    exists idx :: 0 <= idx < |nodes| && Path(nodes, idx) == target[..n]
  }

  /** The first child of cur carrying `want`. */
  method FindChild(nodes: seq<TreeNode>, cur: nat, want: Token) returns (r: Option<nat>)
    ensures r.Some? ==> 0 < r.value < |nodes| && nodes[r.value].parent == cur && nodes[r.value].token == want
    ensures r.None? ==> forall i :: 1 <= i < |nodes| ==> !(nodes[i].parent == cur && nodes[i].token == want)
  {
    var i := 0;
    while i < |nodes|
      invariant i <= |nodes|
      invariant forall j :: 1 <= j < i ==> !(nodes[j].parent == cur && nodes[j].token == want)
    {
      if i != 0 && nodes[i].parent == cur && nodes[i].token == want {
        return Some(i);
      }
      i := i + 1;
    }
    return None;
  }

  /** A longer match goes through a child of the node reached so far. */
  lemma NextOnPath(nodes: seq<TreeNode>, target: seq<Token>, cur: nat, acc: nat, n: nat, idx: nat) returns (a: nat)
    requires WellFormed(nodes) && SiblingsApart(nodes) && acc < n <= |target| && cur < |nodes| && idx < |nodes|
    requires Path(nodes, cur) == target[..acc] && Path(nodes, idx) == target[..n]
    ensures 1 <= a < |nodes| && nodes[a].parent == cur && nodes[a].token == target[acc]
  {
    a := Ancestor(nodes, idx, acc + 1);
    assert target[..n][..acc + 1] == target[..acc + 1];
    assert a > 0 && ParentOk(nodes, a);
    var p := Path(nodes, a);
    assert p[..acc] == Path(nodes, nodes[a].parent) == target[..acc];
    PathUnique(nodes, nodes[a].parent, cur);
    assert nodes[a].token == p[acc] == target[acc];
  }

  /** A node off the target's next token ends the match for good. */
  lemma {:induction false} NoFurther(nodes: seq<TreeNode>, target: seq<Token>, cur: nat, acc: nat, n: nat)
    requires WellFormed(nodes) && SiblingsApart(nodes) && acc < n <= |target| && cur < |nodes|
    requires Path(nodes, cur) == target[..acc]
    requires forall i :: 1 <= i < |nodes| ==> !(nodes[i].parent == cur && nodes[i].token == target[acc])
    ensures !Reaches(nodes, target, n)
  {
    if idx :| 0 <= idx < |nodes| && Path(nodes, idx) == target[..n] {
      var a := NextOnPath(nodes, target, cur, acc, n, idx);
    }
  }

  /**
   How many tokens of the target the tree can follow: the longest target prefix that labels a path
   from the root.
   */
  method TreeAccept(nodes: seq<TreeNode>, target: seq<Token>) returns (acc: nat)
    requires WellFormed(nodes)
    ensures acc <= |target|
    ensures nodes == [] ==> acc == 0
    ensures nodes != [] ==> Reaches(nodes, target, acc)
    ensures SiblingsApart(nodes) ==> forall n :: acc < n <= |target| ==> !Reaches(nodes, target, n)
  {
    acc := 0;
    if nodes == [] {
      return;
    }
    var cur: nat := 0;
    assert target[..0] == [];
    while acc < |target|
      invariant acc <= |target| && cur < |nodes| && Path(nodes, cur) == target[..acc]
    {
      var c := FindChild(nodes, cur, target[acc]);
      if c.None? {
        if SiblingsApart(nodes) {
          forall n | acc < n <= |target| ensures !Reaches(nodes, target, n) {
            NoFurther(nodes, target, cur, acc, n);
          }
        }
        break;
      }
      assert ParentOk(nodes, c.value);
      assert target[..acc + 1] == target[..acc] + [target[acc]];
      cur := c.value;
      acc := acc + 1;
    }
  }
}
