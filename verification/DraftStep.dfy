/**
 The speculative batched step: which tokens are drafted, what the one forward says about each row,
 and why every token committed is the one a plain decode would have produced.
 */
module DraftStep {
  import opened Wrappers
  import opened KvModel
  import opened Generation
  import opened PagedDecoder
  import opened Schedule
  import opened DecodeRows
  import opened DecodeStep
  import opened PoolRoom
  import opened PromptLookup

  /** At most draftK tokens, and never more than the request may still produce. */
  function DraftLimit(x: CbSeq, draftK: nat): (k: nat)
    ensures k <= draftK
  {
    var gen := |x.tokens| - x.promptLen;
    Min(draftK, if x.maxTokens > gen then x.maxTokens - gen else 0)
  }

  /** The draft of a sequence: an n-gram continuation from its own history, or nothing. */
  function DraftOf(x: CbSeq, lookupLen: nat, draftK: nat): (d: seq<Token>)
    ensures |d| <= DraftLimit(x, draftK)
  {
    var k := DraftLimit(x, draftK);
    if k == 0 then []
    else
      match DraftBest(x.tokens, x.tokens, Max(lookupLen, 2), k)
      case Some(d) => d
      case None => []
  }

  /** The draft continues the longest n-gram of the history, for k tokens or as many as followed; it is empty when there is none. */
  ghost predicate HistoryDraft(tokens: seq<Token>, lookupLen: nat, k: nat, draft: seq<Token>) {
    if draft == [] then k == 0 || forall n :: 2 <= n <= lookupLen ==> !Occurs(tokens, tokens, n)
    else exists l: nat :: BestFrom(tokens, tokens, lookupLen, k, l, draft)
  }

  /** Drafts no more than draftK tokens, and no more than the request may still produce. */
  method ChooseDraft(x: CbSeq, lookupLen: nat, draftK: nat) returns (draft: seq<Token>)
    ensures draft == DraftOf(x, lookupLen, draftK)
    ensures var left := x.maxTokens - (|x.tokens| - x.promptLen);
            var longest := if lookupLen < 2 then 2 else lookupLen;
            HistoryDraft(x.tokens, longest, if left <= 0 then 0 else if draftK <= left then draftK else left, draft)
  {
    var k := DraftLimit(x, draftK);
    draft := [];
    if k >= 1 {
      var d := LookupDraftBest(x.tokens, x.tokens, lookupLen, k);
      if d.Some? {
        draft := d.value;
      }
    }
  }

  /** How many leading draft tokens the verified tokens confirm. */
  method Accepted(draft: seq<Token>, so: seq<Token>) returns (acc: nat)
    requires |draft| < |so|
    ensures acc <= |draft| && so[..acc] == draft[..acc]
    ensures acc < |draft| ==> so[acc] != draft[acc]
  {
    acc := 0;
    while acc < |draft| && so[acc] == draft[acc]
      invariant acc <= |draft| && so[..acc] == draft[..acc]
    {
      acc := acc + 1;
    }
  }

  ghost function DraftsOf(active: seq<CbSeq>, lookupLen: nat, draftK: nat): (drafts: seq<seq<Token>>)
    ensures |drafts| == |active|
    ensures forall i :: 0 <= i < |active| ==> drafts[i] == DraftOf(active[i], lookupLen, draftK)
  {
    seq(|active|, i requires 0 <= i < |active| => DraftOf(active[i], lookupLen, draftK))
  }

  /** How many rows the first n sequences put into the batch: a last token and a draft each. */
  function RowCount(drafts: seq<seq<Token>>, n: nat): nat
    requires n <= |drafts|
  {
    if n == 0 then 0 else RowCount(drafts, n - 1) + 1 + |drafts[n - 1]|
  }

  lemma {:induction false} RowsCounted(active: seq<CbSeq>, drafts: seq<seq<Token>>, n: nat)
    requires n <= |active| == |drafts| && forall i :: 0 <= i < |active| ==> active[i].tokens != []
    ensures n <= RowCount(drafts, n) == |AllRows(active, drafts, n)|
  {
    if n > 0 {
      RowsCounted(active, drafts, n - 1);
    }
  }

  lemma {:induction false} RowCountBound(drafts: seq<seq<Token>>, draftK: nat, n: nat)
    requires n <= |drafts| && forall i :: 0 <= i < |drafts| ==> |drafts[i]| <= draftK
    ensures RowCount(drafts, n) <= n * (draftK + 1)
  {
    if n > 0 {
      RowCountBound(drafts, draftK, n - 1);
    }
  }

  /** Some row is beyond the context window exactly when some sequence's draft is. */
  lemma {:induction false} RowsInWindow(active: seq<CbSeq>, drafts: seq<seq<Token>>, maxSeq: nat)
    requires Formed(active) && |drafts| == |active|
    ensures (exists row :: row in AllRows(active, drafts, |active|) && row.pos >= maxSeq) <==> !DraftsInWindow(active, drafts, maxSeq)
  {
    forall row | row in AllRows(active, drafts, |active|) && row.pos >= maxSeq ensures !DraftsInWindow(active, drafts, maxSeq) {
      RowBelongs(active, drafts, row, maxSeq);
    }
    forall i | 0 <= i < |active| && |active[i].tokens| + |drafts[i]| > maxSeq
      ensures exists row :: row in AllRows(active, drafts, |active|) && row.pos >= maxSeq {
      RowAt(active, drafts, i, |drafts[i]|);
      assert AllRows(active, drafts, |active|)[|AllRows(active, drafts, i)| + |drafts[i]|] in AllRows(active, drafts, |active|);
    }
  }

  lemma {:induction false} RowBelongs(active: seq<CbSeq>, drafts: seq<seq<Token>>, row: Row, maxSeq: nat)
    requires Formed(active) && |drafts| == |active| && row in AllRows(active, drafts, |active|) && row.pos >= maxSeq
    ensures !DraftsInWindow(active, drafts, maxSeq)
  {
    var rows := AllRows(active, drafts, |active|);
    var q :| 0 <= q < |rows| && rows[q] == row;
    var i, j := Locate(active, drafts, |active|, q);
    RowAt(active, drafts, i, j);
  }

  lemma RowAt(active: seq<CbSeq>, drafts: seq<seq<Token>>, i: nat, j: nat)
    requires Formed(active) && i < |active| == |drafts| && j <= |drafts[i]|
    ensures var start := |AllRows(active, drafts, i)|;
            var rows := AllRows(active, drafts, |active|);
            start + j < |rows| && rows[start + j].pos == |active[i].tokens| - 1 + j
  {
    RowsPrefix(active, drafts, i + 1, |active|);
    assert AllRows(active, drafts, i + 1) == AllRows(active, drafts, i) + SegRows(active[i], drafts[i]);
  }

  /** Drafts stay in the window when prompt and budget together do. */
  lemma DraftsFit(e: Env, s: Sched, k: Kv, log: seq<Emit>, lookupLen: nat, draftK: nat)
    requires Sane(e, s, k, log) && AllRunning(s, 0)
    requires forall id :: id in e.reqs ==> |e.reqs[id].prompt| + e.reqs[id].maxTokens <= e.maxSeq
    ensures DraftsInWindow(s.active, DraftsOf(s.active, lookupLen, draftK), e.maxSeq)
  {
    BatchLayout(e, s, k, log);
    forall i | 0 <= i < |s.active|
      ensures |s.active[i].tokens| + |DraftOf(s.active[i], lookupLen, draftK)| <= e.maxSeq
    {
      assert Tracked(e, log, s.active[i].AsJob());
      RunningFits(e, log, s.active[i].AsJob());
    }
  }

  /** A pool with a full-length reservation per slot carries any batch inside the window. */
  lemma {:induction false} FullPoolCarries(ctx: seq<seq<Token>>, shared: seq<nat>, held: seq<nat>, maxSeq: nat, rows: seq<Row>, nBlocks: nat, freeBlocks: nat)
    requires |ctx| == |shared| == |held| && Feedable(ctx, shared, maxSeq, rows)
    requires forall t :: 0 <= t < |held| ==> held[t] <= Blocks(maxSeq)
    requires |held| * Blocks(maxSeq) <= nBlocks <= freeBlocks + Sum(held)
    ensures Sum(Grow(held, rows, |rows|)) <= Sum(held) + freeBlocks
  {
    FullPool(held, ctx, shared, maxSeq, rows, |rows|);
    SumBound(Grow(held, rows, |rows|), Blocks(maxSeq), |held|);
  }

  /** Every sequence's own rows carry the greedy choice after its history and the draft so far. */
  ghost predicate Verified(m: Model, x: CbSeq, draft: seq<Token>, so: seq<Token>) {
    |so| == 1 + |draft| && forall j :: 0 <= j <= |draft| ==> so[j] == Greedy(m, x.tokens + draft[..j])
  }

  /** Each row's output is the greedy choice after what the row attends. */
  ghost predicate GreedyOuts(m: Model, ctx: seq<seq<Token>>, rows: seq<Row>, outs: seq<Token>) {
    && |outs| == |rows|
    && forall n, q :: Unfold(n) && 0 <= q < |rows| ==> rows[q].slot < |ctx| && outs[q] == Greedy(m, Attended(ctx, rows, q))
  }

  lemma DraftVerifiedAt(m: Model, ctx: seq<seq<Token>>, active: seq<CbSeq>, drafts: seq<seq<Token>>, outs: seq<Token>, i: nat, j: nat)
    requires Layout(ctx, active) && |drafts| == |active| && i < |active| && j <= |drafts[i]|
    requires GreedyOuts(m, ctx, AllRows(active, drafts, |active|), outs)
    ensures var start := |AllRows(active, drafts, i)|;
            start + |drafts[i]| < |outs| && outs[start + j] == Greedy(m, active[i].tokens + drafts[i][..j])
  {
    assert Unfold(0);
    BatchAttended(ctx, active, drafts, i, j);
  }

  /** The outputs of one forward over the batch's rows, taken apart per sequence. */
  lemma {:induction false} DraftsVerified(m: Model, ctx: seq<seq<Token>>, active: seq<CbSeq>, drafts: seq<seq<Token>>, outs: seq<Token>, i: nat)
    requires Layout(ctx, active) && |drafts| == |active| && i < |active|
    requires GreedyOuts(m, ctx, AllRows(active, drafts, |active|), outs)
    ensures var start := |AllRows(active, drafts, i)|;
            start + 1 + |drafts[i]| <= |outs| && Verified(m, active[i], drafts[i], outs[start..start + 1 + |drafts[i]|])
  {
    DraftVerifiedAt(m, ctx, active, drafts, outs, i, 0);
    var start := |AllRows(active, drafts, i)|;
    var so := outs[start..start + 1 + |drafts[i]|];
    forall j | 0 <= j <= |drafts[i]| ensures so[j] == Greedy(m, active[i].tokens + drafts[i][..j]) {
      DraftVerifiedAt(m, ctx, active, drafts, outs, i, j);
    }
  }

  /** A greedy sequence with its draft resident after its history, and its verified tokens. */
  ghost predicate DraftHeld(e: Env, k: Kv, x: CbSeq, draft: seq<Token>, so: seq<Token>) {
    && x.promptLen <= |x.tokens| && |x.tokens| + |draft| <= e.maxSeq && x.params.temp <= 0.0
    && x.slot < e.mMax == |k.ctx| && k.ctx[x.slot] == x.tokens + draft
    && Verified(e.m, x, draft, so)
  }

  /** The sequence after j of its verified tokens. */
  ghost function Taken(x: CbSeq, so: seq<Token>, j: nat): CbSeq
    requires j <= |so|
  {
    x.(tokens := x.tokens + so[..j])
  }

  /** The scheduler after j verified tokens of sequence i. */
  ghost function TakenIn(s: Sched, i: nat, so: seq<Token>, j: nat): Sched
    requires i < |s.active| && j <= |so|
  {
    s.(active := s.active[i := Taken(s.active[i], so, j)])
  }

  lemma TakeNone(s: Sched, i: nat, so: seq<Token>)
    requires i < |s.active|
    ensures TakenIn(s, i, so, 0) == s
  {
    assert s.active[i].tokens + so[..0] == s.active[i].tokens;
  }

  lemma TakeNext(s: Sched, i: nat, so: seq<Token>, j: nat)
    requires i < |s.active| && j < |so|
    ensures Push(TakenIn(s, i, so, j), i, so[j]) == TakenIn(s, i, so, j + 1)
  {
    var x := s.active[i];
    assert x.tokens + so[..j] + [so[j]] == x.tokens + so[..j + 1];
  }

  /**
   While the draft agrees with the verified tokens, the verified token at j is the sequence's own
   next token and its history is resident.
   */
  lemma DraftMayCommit(e: Env, k: Kv, x: CbSeq, draft: seq<Token>, so: seq<Token>, j: nat)
    requires DraftHeld(e, k, x, draft, so) && j <= |draft| && so[..j] == draft[..j]
    requires Running(Taken(x, so, j).AsJob())
    ensures MayCommit(e, Taken(x, so, j), k.ctx[x.slot], so[j])
  {
    var y := Taken(x, so, j);
    assert y.tokens == (x.tokens + draft)[..|x.tokens| + j];
    assert y.tokens[..x.promptLen] + y.tokens[x.promptLen..] == y.tokens;
  }

  // ---------------------------------------------------------------- the batch's segments

  /** Where a sequence's rows start, and its draft. */
  datatype Segment = Segment(start: nat, draft: seq<Token>)

  /** A sequence's draft is resident after its history, and its rows' outputs are verified choices. */
  ghost predicate SegVerified(e: Env, x: CbSeq, k: Kv, seg: Segment, outs: seq<Token>) {
    && Running(x.AsJob()) && seg.start + 1 + |seg.draft| <= |outs|
    && DraftHeld(e, k, x, seg.draft, outs[seg.start..seg.start + 1 + |seg.draft|])
  }

  ghost predicate AllVerified(e: Env, s: Sched, k: Kv, layout: seq<Segment>, outs: seq<Token>, from: nat) {
    |layout| == |s.active| && forall i :: from <= i < |layout| ==> SegVerified(e, s.active[i], k, layout[i], outs)
  }

  /** The segments of the batch's rows. */
  ghost predicate LaidOut(active: seq<CbSeq>, drafts: seq<seq<Token>>, layout: seq<Segment>, n: nat)
    requires |drafts| == |active| && Formed(active)
  {
    |layout| == n <= |active| && forall i {:trigger layout[i]} :: 0 <= i < n ==> layout[i] == Segment(|AllRows(active, drafts, i)|, drafts[i])
  }

  lemma {:induction false} LaidOutNext(active: seq<CbSeq>, drafts: seq<seq<Token>>, layout: seq<Segment>, n: nat)
    requires |drafts| == |active| && Formed(active) && n < |active| && LaidOut(active, drafts, layout, n)
    ensures LaidOut(active, drafts, layout + [Segment(|AllRows(active, drafts, n)|, drafts[n])], n + 1)
  {
  }

  /** `drafts` are the batch's drafts. Folded. */
  ghost predicate AreDrafts(drafts: seq<seq<Token>>, active: seq<CbSeq>, lookupLen: nat, draftK: nat) {
    |drafts| == |active| && forall n :: Unfold(n) ==> drafts == DraftsOf(active, lookupLen, draftK)
  }

  method ChooseDraftOf(active: seq<CbSeq>, ghost drafts: seq<seq<Token>>, i: nat, lookupLen: nat, draftK: nat)
    returns (draft: seq<Token>)
    requires i < |active| && AreDrafts(drafts, active, lookupLen, draftK)
    ensures draft == drafts[i]
  {
    assert Unfold(0);
    draft := ChooseDraft(active[i], lookupLen, draftK);
  }

  /** The rows of the batch, each sequence's last token and its draft, and where they start. */
  method LayOut(active: seq<CbSeq>, ghost drafts: seq<seq<Token>>, lookupLen: nat, draftK: nat)
    returns (rows: seq<Row>, layout: seq<Segment>)
    requires Formed(active) && AreDrafts(drafts, active, lookupLen, draftK)
    ensures rows == AllRows(active, drafts, |active|)
    ensures LaidOut(active, drafts, layout, |active|)
  {
    rows, layout := [], [];
    var i := 0;
    while i < |active|
      invariant i <= |active|
      invariant rows == AllRows(active, drafts, i) && LaidOut(active, drafts, layout, i)
    {
      var draft := ChooseDraftOf(active, drafts, i, lookupLen, draftK);
      rows, layout := LayOutOne(active, drafts, i, draft, rows, layout);
      i := i + 1;
    }
  }

  method LayOutOne(active: seq<CbSeq>, ghost drafts: seq<seq<Token>>, i: nat, draft: seq<Token>, rows: seq<Row>, layout: seq<Segment>)
    returns (rows': seq<Row>, layout': seq<Segment>)
    requires Formed(active) && i < |active| == |drafts| && draft == drafts[i]
    requires rows == AllRows(active, drafts, i) && LaidOut(active, drafts, layout, i)
    ensures rows' == AllRows(active, drafts, i + 1) && LaidOut(active, drafts, layout', i + 1)
  {
    LaidOutNext(active, drafts, layout, i);
    layout' := layout + [Segment(|rows|, draft)];
    rows' := rows + SegRows(active[i], draft);
  }

  /** Each of the first n sequences gained between one token and its draft's length plus one. */
  ghost predicate Grew(before: seq<CbSeq>, after: seq<CbSeq>, layout: seq<Segment>, n: nat)
    requires n <= |before| == |after| == |layout|
  {
    forall i :: 0 <= i < n ==>
      && after[i] == before[i].(tokens := after[i].tokens) && before[i].tokens <= after[i].tokens
      && 1 <= |after[i].tokens| - |before[i].tokens| <= 1 + |layout[i].draft|
  }

  /** The same for the first n, the rest being untouched. */
  ghost predicate GrewSoFar(before: seq<CbSeq>, after: seq<CbSeq>, layout: seq<Segment>, n: nat) {
    && n <= |before| == |after| == |layout|
    && Grew(before, after, layout, n)
    && forall j :: n <= j < |layout| ==> after[j] == before[j]
  }

  lemma GrewNext(before: seq<CbSeq>, s: Sched, s': Sched, layout: seq<Segment>, i: nat, so: seq<Token>, n: nat)
    requires i < |layout| && GrewSoFar(before, s.active, layout, i)
    requires 1 <= n <= 1 + |layout[i].draft| == |so| && s' == TakenIn(s, i, so, n)
    ensures GrewSoFar(before, s'.active, layout, i + 1)
  {
  }

  /** After the forward every segment is verified and the invariant holds. */
  lemma {:induction false} PldFed(e: Env, s: Sched, k: Kv, k': Kv, log: seq<Emit>, drafts: seq<seq<Token>>, layout: seq<Segment>, outs: seq<Token>)
    requires Sane(e, s, k, log) && AllRunning(s, 0) && Formed(s.active) && DraftsInWindow(s.active, drafts, e.maxSeq)
    requires forall i :: 0 <= i < |s.active| ==> s.active[i].params.temp <= 0.0
    requires LaidOut(s.active, drafts, layout, |s.active|)
    requires var rows := AllRows(s.active, drafts, |s.active|);
             && GreedyOuts(e.m, k.ctx, rows, outs)
             && k' == Kv(FeedRows(k.ctx, rows, |rows|), k.shared, Grow(k.held, rows, |rows|))
    ensures Sane(e, s, k', log) && AllVerified(e, s, k', layout, outs, 0)
  {
    BatchLayout(e, s, k, log);
    BatchFed(e, s, k, k', log, drafts);
    forall i | 0 <= i < |s.active| ensures SegVerified(e, s.active[i], k', layout[i], outs) {
      SegmentVerified(e, s, k, k', drafts, layout[i], outs, i);
    }
  }

  lemma {:induction false} SegmentVerified(e: Env, s: Sched, k: Kv, k': Kv, drafts: seq<seq<Token>>, seg: Segment, outs: seq<Token>, i: nat)
    requires Layout(k.ctx, s.active) && Formed(s.active) && DraftsInWindow(s.active, drafts, e.maxSeq) && i < |s.active|
    requires Running(s.active[i].AsJob()) && s.active[i].params.temp <= 0.0
    requires seg == Segment(|AllRows(s.active, drafts, i)|, drafts[i])
    requires GreedyOuts(e.m, k.ctx, AllRows(s.active, drafts, |s.active|), outs)
    requires |k'.ctx| == e.mMax && s.active[i].slot < e.mMax
    requires k'.ctx[s.active[i].slot] == s.active[i].tokens + drafts[i]
    ensures SegVerified(e, s.active[i], k', seg, outs)
  {
    DraftsVerified(e.m, k.ctx, s.active, drafts, outs, i);
  }

  /** The batch may be fed from a full pool. */
  lemma {:induction false} PldPlan(e: Env, s: Sched, k: Kv, log: seq<Emit>, drafts: seq<seq<Token>>, nBlocks: nat, freeBlocks: nat)
    requires Sane(e, s, k, log) && Formed(s.active) && DraftsInWindow(s.active, drafts, e.maxSeq)
    requires forall t :: 0 <= t < |k.held| ==> k.held[t] <= Blocks(e.maxSeq)
    requires e.mMax * Blocks(e.maxSeq) <= nBlocks <= freeBlocks + Sum(k.held)
    ensures var rows := AllRows(s.active, drafts, |s.active|);
            Feedable(k.ctx, k.shared, e.maxSeq, rows) && Sum(Grow(k.held, rows, |rows|)) <= Sum(k.held) + freeBlocks
  {
    BatchReady(e, s, k, log, drafts);
    FullPoolCarries(k.ctx, k.shared, k.held, e.maxSeq, AllRows(s.active, drafts, |s.active|), nBlocks, freeBlocks);
  }

  /** With a full pool no plain batch needs an eviction. */
  lemma NothingShort(e: Env, s: Sched, k: Kv, log: seq<Emit>, nBlocks: nat, freeBlocks: nat)
    requires Sane(e, s, k, log) && InWindow(s.active, e.maxSeq) && Formed(s.active)
    requires forall t :: 0 <= t < |k.held| ==> k.held[t] <= Blocks(e.maxSeq)
    requires forall i :: 0 <= i < |s.active| ==> s.active[i].slot < |k.held|
    requires e.mMax * Blocks(e.maxSeq) <= nBlocks <= freeBlocks + Sum(k.held)
    ensures NeededTo(k.held, s.active, NoDrafts(|s.active|), |s.active|) <= freeBlocks
  {
    PldPlan(e, s, k, log, NoDrafts(|s.active|), nBlocks, freeBlocks);
    BatchLayout(e, s, k, log);
    BatchGrows(k.ctx, k.held, s.active, NoDrafts(|s.active|));
  }
}
