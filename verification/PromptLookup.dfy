/** Prompt-lookup drafting: propose what followed the most recent earlier occurrence of the last n-gram. */
module PromptLookup {
  import opened Wrappers
  import opened KvModel

  /** `key` occurs at `start` and something follows it. */
  predicate MatchAt(haystack: seq<Token>, key: seq<Token>, start: nat) {
    start + |key| < |haystack| && haystack[start..start + |key|] == key
  }

  /** The greatest match position below n. */
  function LastMatch(haystack: seq<Token>, key: seq<Token>, n: nat): (r: Option<nat>)
    ensures r.Some? ==> r.value < n
  {
    if n == 0 then None
    else if MatchAt(haystack, key, n - 1) then Some(n - 1)
    else LastMatch(haystack, key, n - 1)
  }

  lemma {:induction false} LastMatchIsLast(haystack: seq<Token>, key: seq<Token>, n: nat)
    ensures match LastMatch(haystack, key, n)
            case Some(s) => MatchAt(haystack, key, s) && forall t :: s < t < n ==> !MatchAt(haystack, key, t)
            case None => forall t :: 0 <= t < n ==> !MatchAt(haystack, key, t)
  {
    if n > 0 && !MatchAt(haystack, key, n - 1) {
      LastMatchIsLast(haystack, key, n - 1);
    }
  }

  /** The draft for one n-gram length: up to k tokens after the most recent match. */
  function Draft(haystack: seq<Token>, recent: seq<Token>, lookupLen: nat, k: nat): (r: Option<seq<Token>>)
    ensures r.Some? ==> 1 <= |r.value| <= k
  {
    if |recent| < lookupLen || |haystack| < lookupLen + 1 || k == 0 then None
    else
      match LastMatch(haystack, recent[|recent| - lookupLen..], |haystack| - lookupLen)
      case None => None
      case Some(s) =>
        var after := s + lookupLen;
        Some(haystack[after..after + Min(k, |haystack| - after)])
  }

  /** A draft is proposed exactly when the last n-gram occurs earlier with something after it. */
  lemma DraftFound(haystack: seq<Token>, recent: seq<Token>, lookupLen: nat, k: nat)
    requires lookupLen <= |recent| && k > 0
    ensures var key := recent[|recent| - lookupLen..];
            Draft(haystack, recent, lookupLen, k).Some? <==> exists s :: 0 <= s <= |haystack| && MatchAt(haystack, key, s)
  {
    var key := recent[|recent| - lookupLen..];
    LastMatchIsLast(haystack, key, if |haystack| > lookupLen then |haystack| - lookupLen else 0);
    forall s | 0 <= s <= |haystack| && MatchAt(haystack, key, s) ensures s < |haystack| - lookupLen {
    }
    if Draft(haystack, recent, lookupLen, k).Some? {
      assert MatchAt(haystack, key, LastMatch(haystack, key, |haystack| - lookupLen).value);
    }
  }

  /** The last l tokens occur at s with something after them. */
  predicate OccursAt(haystack: seq<Token>, recent: seq<Token>, l: nat, s: nat) {
    l <= |recent| && MatchAt(haystack, recent[|recent| - l..], s)
  }

  /** d is what followed the most recent occurrence of the last l tokens, at s: k tokens, or as many as there are. */
  ghost predicate Continues(haystack: seq<Token>, recent: seq<Token>, l: nat, k: nat, s: nat, d: seq<Token>) {
    && OccursAt(haystack, recent, l, s) && (forall t :: t > s ==> !OccursAt(haystack, recent, l, t))
    && |d| == (if k <= |haystack| - s - l then k else |haystack| - s - l)
    && forall j :: 0 <= j < |d| ==> d[j] == haystack[s + l + j]
  }

  ghost predicate IsDraft(haystack: seq<Token>, recent: seq<Token>, l: nat, k: nat, d: seq<Token>) {
    exists s: nat :: Continues(haystack, recent, l, k, s, d)
  }

  lemma DraftContinues(haystack: seq<Token>, recent: seq<Token>, lookupLen: nat, k: nat)
    requires Draft(haystack, recent, lookupLen, k).Some?
    ensures IsDraft(haystack, recent, lookupLen, k, Draft(haystack, recent, lookupLen, k).value)
  {
    var key := recent[|recent| - lookupLen..];
    LastMatchIsLast(haystack, key, |haystack| - lookupLen);
    var s := LastMatch(haystack, key, |haystack| - lookupLen).value;
    assert OccursAt(haystack, recent, lookupLen, s);
    assert Continues(haystack, recent, lookupLen, k, s, Draft(haystack, recent, lookupLen, k).value);
  }

  /** Proposes what followed the most recent earlier occurrence of the last n-gram. */
  method LookupDraft(haystack: seq<Token>, recent: seq<Token>, lookupLen: nat, k: nat) returns (d: Option<seq<Token>>)
    ensures d == Draft(haystack, recent, lookupLen, k)
    ensures d.Some? ==> IsDraft(haystack, recent, lookupLen, k, d.value)
  {
    hide IsDraft;
    if Draft(haystack, recent, lookupLen, k).Some? {
      DraftContinues(haystack, recent, lookupLen, k);
    }
    if |recent| < lookupLen || |haystack| < lookupLen + 1 || k == 0 {
      return None;
    }
    var key := recent[|recent| - lookupLen..];
    var start := |haystack| - lookupLen;
    while start > 0
      invariant 0 <= start <= |haystack| - lookupLen
      invariant LastMatch(haystack, key, |haystack| - lookupLen) == LastMatch(haystack, key, start)
    {
      start := start - 1;
      if haystack[start..start + lookupLen] == key {
        var after := start + lookupLen;
        var take := Min(k, |haystack| - after);
        return Some(haystack[after..after + take]);
      }
    }
    return None;
  }

  /** Longest n-gram first, from `len` down to 2. */
  function DraftBest(haystack: seq<Token>, recent: seq<Token>, len: nat, k: nat): (r: Option<seq<Token>>)
    ensures r.Some? ==> 1 <= |r.value| <= k
  {
    if len < 2 then None
    else
      match Draft(haystack, recent, len, k)
      case Some(d) => Some(d)
      case None => DraftBest(haystack, recent, len - 1, k)
  }

  /** The chosen draft comes from the longest n-gram that yields one. */
  lemma {:induction false} BestIsLongest(haystack: seq<Token>, recent: seq<Token>, len: nat, k: nat, l: nat)
    requires 2 <= l <= len && Draft(haystack, recent, l, k).Some?
    ensures DraftBest(haystack, recent, len, k).Some?
    ensures (forall n :: l < n <= len ==> Draft(haystack, recent, n, k).None?) ==>
              DraftBest(haystack, recent, len, k) == Draft(haystack, recent, l, k)
  {
    if Draft(haystack, recent, len, k).None? {
      BestIsLongest(haystack, recent, len - 1, k, l);
    }
  }

  /** The last l tokens occur earlier with something after them. */
  ghost predicate Occurs(haystack: seq<Token>, recent: seq<Token>, l: nat) {
    exists s: nat :: OccursAt(haystack, recent, l, s)
  }

  /** d continues the last l tokens, and nothing longer up to `len` occurs earlier. */
  ghost predicate BestFrom(haystack: seq<Token>, recent: seq<Token>, len: nat, k: nat, l: nat, d: seq<Token>) {
    && 2 <= l <= len && IsDraft(haystack, recent, l, k, d)
    && forall n :: l < n <= len ==> !Occurs(haystack, recent, n)
  }

  lemma DraftOccurs(haystack: seq<Token>, recent: seq<Token>, l: nat, k: nat)
    requires k > 0
    ensures Draft(haystack, recent, l, k).Some? <==> Occurs(haystack, recent, l)
  {
    if l <= |recent| {
      DraftFound(haystack, recent, l, k);
      var key := recent[|recent| - l..];
      if s :| 0 <= s <= |haystack| && MatchAt(haystack, key, s) {
        assert OccursAt(haystack, recent, l, s);
      }
    }
  }

  lemma {:induction false} BestContinues(haystack: seq<Token>, recent: seq<Token>, len: nat, k: nat)
    requires k > 0
    ensures match DraftBest(haystack, recent, len, k)
            case Some(d) => exists l: nat :: BestFrom(haystack, recent, len, k, l, d)
            case None => forall n :: 2 <= n <= len ==> !Occurs(haystack, recent, n)
  {
    hide Draft, Occurs, IsDraft;
    if len >= 2 {
      DraftOccurs(haystack, recent, len, k);
      if Draft(haystack, recent, len, k).Some? {
        DraftContinues(haystack, recent, len, k);
        assert DraftBest(haystack, recent, len, k) == Draft(haystack, recent, len, k);
        assert BestFrom(haystack, recent, len, k, len, DraftBest(haystack, recent, len, k).value);
      } else {
        BestContinues(haystack, recent, len - 1, k);
        assert DraftBest(haystack, recent, len, k) == DraftBest(haystack, recent, len - 1, k);
        if DraftBest(haystack, recent, len, k).Some? {
          var d := DraftBest(haystack, recent, len, k).value;
          var l: nat :| BestFrom(haystack, recent, len - 1, k, l, d);
          assert BestFrom(haystack, recent, len, k, l, d);
        }
      }
    }
  }

  lemma {:induction false} NothingAsked(haystack: seq<Token>, recent: seq<Token>, len: nat)
    ensures DraftBest(haystack, recent, len, 0) == None
  {
    if len >= 2 {
      NothingAsked(haystack, recent, len - 1);
    }
  }

  /** The continuation of the longest n-gram, down to two tokens, that occurs earlier. */
  method LookupDraftBest(haystack: seq<Token>, recent: seq<Token>, maxLen: nat, k: nat) returns (d: Option<seq<Token>>)
    ensures d == DraftBest(haystack, recent, Max(maxLen, 2), k)
    ensures var longest := if maxLen < 2 then 2 else maxLen;
            match d
            case Some(t) => exists l: nat :: BestFrom(haystack, recent, longest, k, l, t)
            case None => k == 0 || forall n :: 2 <= n <= longest ==> !Occurs(haystack, recent, n)
  {
    if k > 0 {
      BestContinues(haystack, recent, Max(maxLen, 2), k);
    } else {
      NothingAsked(haystack, recent, Max(maxLen, 2));
    }
    var len := Max(maxLen, 2);
    while len >= 2
      invariant 1 <= len <= Max(maxLen, 2)
      invariant DraftBest(haystack, recent, Max(maxLen, 2), k) == DraftBest(haystack, recent, len, k)
    {
      d := LookupDraft(haystack, recent, len, k);
      if d.Some? {
        return;
      }
      len := len - 1;
    }
    return None;
  }
}
