/** One batched decode over the scheduler's state: what may be fed, and what it leaves behind. */
module DecodeStep {
  import opened Wrappers
  import opened KvModel
  import opened Generation
  import opened PagedDecoder
  import opened Schedule
  import opened DecodeRows

  /** No drafts: one row per sequence. */
  ghost function NoDrafts(n: nat): (d: seq<seq<Token>>)
    ensures |d| == n && forall i :: 0 <= i < n ==> d[i] == []
  {
    seq(n, _ => [])
  }

  /** Every decoding sequence's next token would be written inside the context window. */
  predicate InWindow(active: seq<CbSeq>, maxSeq: nat) {
    forall i :: 0 <= i < |active| ==> |active[i].tokens| <= maxSeq
  }

  /** A running sequence has budget left; if prompt and budget together fit the window, so does its next position. */
  lemma RunningFits(e: Env, log: seq<Emit>, j: Job)
    requires Tracked(e, log, j) && Running(j) && j.promptLen < |j.tokens|
    ensures |j.Gen()| < j.maxTokens
    ensures j.promptLen + j.maxTokens <= e.maxSeq + 1 ==> |j.tokens| <= e.maxSeq
  {
  }

  /** So would every position of the sequences' drafts. */
  ghost predicate DraftsInWindow(active: seq<CbSeq>, drafts: seq<seq<Token>>, maxSeq: nat) {
    |drafts| == |active| && forall i :: 0 <= i < |active| ==> |active[i].tokens| + |drafts[i]| <= maxSeq
  }

  lemma BatchLayout(e: Env, s: Sched, k: Kv, log: seq<Emit>)
    requires Sane(e, s, k, log)
    ensures Layout(k.ctx, s.active)
    ensures forall i :: 0 <= i < |s.active| ==>
        && s.active[i].slot < e.mMax
        && BLOCK * k.shared[s.active[i].slot] <= |s.active[i].tokens| - 1
        && s.active[i].promptLen < |s.active[i].tokens|
        && Tracked(e, log, s.active[i].AsJob())
  {
    assert Unfold(0);
    forall i | 0 <= i < |s.active|
      ensures ActiveOk(e, log, k, s.active[i]) && HasHistory(k.ctx, s.active[i])
    {
      assert ActiveOk(e, log, k, s.active[i]);
    }
  }

  lemma {:induction false} BatchReady(e: Env, s: Sched, k: Kv, log: seq<Emit>, drafts: seq<seq<Token>>)
    requires Sane(e, s, k, log) && DraftsInWindow(s.active, drafts, e.maxSeq)
    ensures Layout(k.ctx, s.active)
    ensures Feedable(k.ctx, k.shared, e.maxSeq, AllRows(s.active, drafts, |s.active|))
  {
    BatchLayout(e, s, k, log);
    BatchFeedable(k.ctx, k.shared, e.maxSeq, s.active, drafts);
  }

  /** After the forward, each sequence's history and draft are resident and the invariant holds. */
  lemma {:induction false} BatchFed(e: Env, s: Sched, k: Kv, k': Kv, log: seq<Emit>, drafts: seq<seq<Token>>)
    requires Sane(e, s, k, log) && Layout(k.ctx, s.active) && |drafts| == |s.active|
    requires var rows := AllRows(s.active, drafts, |s.active|);
             k' == Kv(FeedRows(k.ctx, rows, |rows|), k.shared, Grow(k.held, rows, |rows|))
    ensures Sane(e, s, k', log)
    ensures forall i :: 0 <= i < |s.active| ==>
        s.active[i].slot < e.mMax && k'.ctx[s.active[i].slot] == s.active[i].tokens + drafts[i]
  {
    BatchLayout(e, s, k, log);
    AllFeed(k.ctx, s.active, drafts, |s.active|);
    AllGrow(k.held, s.active, drafts, |s.active|);
    forall t | 0 <= t < e.mMax && Idle(s.active, t) ensures k'.ctx[t] == k.ctx[t] && k'.held[t] == k.held[t] {
    }
    FedSane(e, s, k, k', log);
  }

  /** The row of a sequence without a draft. */
  function DecodeRow(x: CbSeq): Row
    requires x.tokens != []
  {
    Row(x.tokens[|x.tokens| - 1], |x.tokens| - 1, x.slot)
  }

  lemma {:induction false} PlainRows(active: seq<CbSeq>, n: nat)
    requires n <= |active| && forall i :: 0 <= i < |active| ==> active[i].tokens != []
    ensures |AllRows(active, NoDrafts(|active|), n)| == n
    ensures forall i :: 0 <= i < n ==> AllRows(active, NoDrafts(|active|), n)[i] == DecodeRow(active[i])
  {
    if n > 0 {
      PlainRows(active, n - 1);
    }
  }

  // ---------------------------------------------------------------- which sampler

  /** How a batched step draws: top-k if anyone needs it, else temperature if anyone has one, else greedy. */
  datatype Path = TopK | Sampled | Argmax

  function PathOf(active: seq<CbSeq>): Path {
    if exists x :: x in active && x.params.NeedsTopK() then TopK
    else if exists x :: x in active && x.params.temp > 0.0 then Sampled
    else Argmax
  }

  function PathPick(p: Path, m: Model, kv: seq<Entry>, params: SamplingParams, seed: nat): Token {
    match p
    case TopK => PickTopK(m, kv, params, seed)
    case Sampled => PickTemp(m, kv, params.temp, seed)
    case Argmax => ArgMax(m.logits(kv))
  }

  function ParamsOf(active: seq<CbSeq>): (r: seq<SamplingParams>)
    ensures |r| == |active| && forall i :: 0 <= i < |active| ==> r[i] == active[i].params
  {
    seq(|active|, i requires 0 <= i < |active| => active[i].params)
  }

  function TempsOf(active: seq<CbSeq>): (r: seq<real>)
    ensures |r| == |active| && forall i :: 0 <= i < |active| ==> r[i] == active[i].params.temp
  {
    seq(|active|, i requires 0 <= i < |active| => active[i].params.temp)
  }

  /** Row i's token was drawn by the batch's path from what row i attends. */
  ghost predicate Drawn(m: Model, ctx: seq<seq<Token>>, rows: seq<Row>, active: seq<CbSeq>, seeds: seq<nat>, outs: seq<Token>) {
    && |outs| == |rows| == |active| == |seeds|
    && forall n, i :: Unfold(n) && 0 <= i < |rows| ==>
        rows[i].slot < |ctx|
        && outs[i] == PathPick(PathOf(active), m, KvOf(m, Attended(ctx, rows, i)), active[i].params, seeds[i])
  }

  lemma {:induction false} DrawnTopK(m: Model, ctx: seq<seq<Token>>, rows: seq<Row>, active: seq<CbSeq>, seeds: seq<nat>, outs: seq<Token>)
    requires |outs| == |rows| == |active| == |seeds| && PathOf(active) == TopK
    requires forall i :: 0 <= i < |rows| ==> rows[i].slot < |ctx|
    requires forall i :: 0 <= i < |rows| ==>
        outs[i] == PickTopK(m, KvOf(m, Attended(ctx, rows, i)), ParamsOf(active)[i], seeds[i])
    ensures Drawn(m, ctx, rows, active, seeds, outs)
  {
  }

  lemma {:induction false} DrawnSampled(m: Model, ctx: seq<seq<Token>>, rows: seq<Row>, active: seq<CbSeq>, seeds: seq<nat>, outs: seq<Token>)
    requires |outs| == |rows| == |active| == |seeds| && PathOf(active) == Sampled
    requires forall i :: 0 <= i < |rows| ==> rows[i].slot < |ctx|
    requires forall i :: 0 <= i < |rows| ==>
        outs[i] == PickTemp(m, KvOf(m, Attended(ctx, rows, i)), TempsOf(active)[i], seeds[i])
    ensures Drawn(m, ctx, rows, active, seeds, outs)
  {
  }

  lemma DrawnArgmax(m: Model, ctx: seq<seq<Token>>, rows: seq<Row>, active: seq<CbSeq>, seeds: seq<nat>, outs: seq<Token>)
    requires |outs| == |rows| == |active| == |seeds| && PathOf(active) == Argmax
    requires forall i :: 0 <= i < |rows| ==> rows[i].slot < |ctx| && outs[i] == Greedy(m, Attended(ctx, rows, i))
    ensures Drawn(m, ctx, rows, active, seeds, outs)
  {
  }

  /** Every path draws an exact request's own next token. */
  lemma PathExact(e: Env, s: Sched, k: Kv, log: seq<Emit>, i: nat)
    requires Sane(e, s, k, log) && i < |s.active| && s.active[i].promptLen < |s.active[i].tokens|
    requires Exact(s.active[i].AsJob().Req(), e.mode)
    ensures var x := s.active[i];
            PathPick(PathOf(s.active), e.m, KvOf(e.m, x.tokens), x.params, StepSeed(x.baseSeed, |x.tokens| - x.promptLen))
            == NextToken(e.m, x.AsJob().Req(), x.AsJob().Gen())
  {
    var x := s.active[i];
    assert x.tokens[..x.promptLen] + x.tokens[x.promptLen..] == x.tokens;
    if e.mode.noTopK {
      NobodyNeedsTopK(e, s, k, log);
    }
    PathOwn(s.active, i, e.mode.noTopK, e.m, KvOf(e.m, x.tokens), StepSeed(x.baseSeed, |x.tokens| - x.promptLen));
  }

  lemma NobodyNeedsTopK(e: Env, s: Sched, k: Kv, log: seq<Emit>)
    requires Sane(e, s, k, log) && e.mode.noTopK
    ensures forall j :: 0 <= j < |s.active| ==> !s.active[j].params.NeedsTopK()
  {
    assert Unfold(0);
    forall j | 0 <= j < |s.active| ensures !s.active[j].params.NeedsTopK() {
      assert ActiveOk(e, log, k, s.active[j]);
    }
  }

  lemma PathOwn(active: seq<CbSeq>, i: nat, noTopK: bool, m: Model, kv: seq<Entry>, seed: nat)
    requires i < |active|
    requires noTopK ==> forall j :: 0 <= j < |active| ==> !active[j].params.NeedsTopK()
    requires active[i].params.temp <= 0.0 || noTopK || active[i].params.NeedsTopK()
    ensures PathPick(PathOf(active), m, kv, active[i].params, seed) == PickOwn(m, kv, active[i].params, seed)
  {
    assert active[i] in active;
  }

  /** A sequence's history is resident and `tok` may be committed to it as its next token. */
  ghost predicate MayCommit(e: Env, x: CbSeq, c: seq<Token>, tok: Token) {
    && Running(x.AsJob())
    && |x.tokens| <= e.maxSeq
    && x.tokens <= c
    && (Exact(x.AsJob().Req(), e.mode) ==> tok == NextToken(e.m, x.AsJob().Req(), x.AsJob().Gen()))
  }

  /** One resident history and one admissible token per decoding sequence from the i-th on. */
  ghost predicate AllMayCommit(e: Env, s: Sched, k: Kv, toks: seq<Token>, i: nat) {
    && |toks| == |s.active| && |k.ctx| == e.mMax
    && forall j :: i <= j < |toks| ==>
        s.active[j].slot < e.mMax && MayCommit(e, s.active[j], k.ctx[s.active[j].slot], toks[j])
  }

  /** Every decoding sequence has produced at least one token. */
  predicate Formed(active: seq<CbSeq>) {
    forall i :: 0 <= i < |active| ==> active[i].promptLen < |active[i].tokens|
  }

  function RowsOf(active: seq<CbSeq>): (rows: seq<Row>)
    requires Formed(active)
    ensures |rows| == |active| && forall i :: 0 <= i < |active| ==> rows[i] == DecodeRow(active[i])
  {
    seq(|active|, i requires 0 <= i < |active| => DecodeRow(active[i]))
  }

  function SeedsOf(active: seq<CbSeq>): (seeds: seq<nat>)
    requires Formed(active)
    ensures |seeds| == |active|
    ensures forall i :: 0 <= i < |active| ==>
        seeds[i] == StepSeed(active[i].baseSeed, |active[i].tokens| - active[i].promptLen)
  {
    seq(|active|, i requires 0 <= i < |active| => StepSeed(active[i].baseSeed, |active[i].tokens| - active[i].promptLen))
  }

  lemma {:induction false} RowsAre(active: seq<CbSeq>)
    requires Formed(active)
    ensures RowsOf(active) == AllRows(active, NoDrafts(|active|), |active|)
  {
    PlainRows(active, |active|);
  }

  /** A sequence without a draft attends its own history. */
  lemma AttendsHistory(ctx: seq<seq<Token>>, active: seq<CbSeq>, i: nat)
    requires Layout(ctx, active) && i < |active| && Formed(active)
    ensures RowsOf(active)[i].slot < |ctx| && Attended(ctx, RowsOf(active), i) == active[i].tokens
  {
    RowsAre(active);
    PlainRows(active, i);
    BatchAttended(ctx, active, NoDrafts(|active|), i, 0);
    assert HasHistory(ctx, active[i]);
    assert active[i].tokens + [] == active[i].tokens;
  }

  /** The tokens a decode step draws may all be committed. */
  lemma DrawnMayCommit(e: Env, s: Sched, k: Kv, k': Kv, log: seq<Emit>, i: nat, outs: seq<Token>)
    requires Sane(e, s, k, log) && Layout(k.ctx, s.active) && i < |s.active| && Running(s.active[i].AsJob())
    requires Formed(s.active) && InWindow(s.active, e.maxSeq)
    requires Drawn(e.m, k.ctx, RowsOf(s.active), s.active, SeedsOf(s.active), outs)
    requires s.active[i].slot < |k'.ctx| && k'.ctx[s.active[i].slot] == s.active[i].tokens
    ensures MayCommit(e, s.active[i], k'.ctx[s.active[i].slot], outs[i])
  {
    assert Unfold(0);
    AttendsHistory(k.ctx, s.active, i);
    if Exact(s.active[i].AsJob().Req(), e.mode) {
      PathExact(e, s, k, log, i);
    }
  }

  /** After a plain decode forward, each history is resident and the invariant holds. */
  lemma PlainFed(e: Env, s: Sched, k: Kv, k': Kv, log: seq<Emit>)
    requires Sane(e, s, k, log) && Layout(k.ctx, s.active) && Formed(s.active)
    requires var rows := RowsOf(s.active);
             k' == Kv(FeedRows(k.ctx, rows, |rows|), k.shared, Grow(k.held, rows, |rows|))
    ensures Sane(e, s, k', log)
    ensures forall i :: 0 <= i < |s.active| ==> s.active[i].slot < e.mMax && k'.ctx[s.active[i].slot] == s.active[i].tokens
  {
    RowsAre(s.active);
    BatchFed(e, s, k, k', log, NoDrafts(|s.active|));
    forall i | 0 <= i < |s.active| ensures s.active[i].tokens + [] == s.active[i].tokens {
    }
  }

  lemma ActiveFormed(e: Env, s: Sched, k: Kv, log: seq<Emit>)
    requires Sane(e, s, k, log)
    ensures Formed(s.active)
  {
    BatchLayout(e, s, k, log);
  }

  /** The batch may be fed when the blocks its sequences are short of are available. */
  lemma StepPlan(e: Env, s: Sched, k: Kv, log: seq<Emit>, freeBlocks: nat)
    requires Sane(e, s, k, log) && InWindow(s.active, e.maxSeq)
    requires Formed(s.active) && forall i :: 0 <= i < |s.active| ==> s.active[i].slot < |k.held|
    requires NeededTo(k.held, s.active, NoDrafts(|s.active|), |s.active|) <= freeBlocks
    ensures var rows := RowsOf(s.active);
            Feedable(k.ctx, k.shared, e.maxSeq, rows) && Sum(Grow(k.held, rows, |rows|)) <= Sum(k.held) + freeBlocks
  {
    RowsAre(s.active);
    BatchReady(e, s, k, log, NoDrafts(|s.active|));
    BatchGrows(k.ctx, k.held, s.active, NoDrafts(|s.active|));
  }

  lemma {:induction false} BatchGrows(ctx: seq<seq<Token>>, held: seq<nat>, active: seq<CbSeq>, drafts: seq<seq<Token>>)
    requires Layout(ctx, active) && |held| == |ctx| && |drafts| == |active|
    ensures var rows := AllRows(active, drafts, |active|);
            Sum(Grow(held, rows, |rows|)) == Sum(held) + NeededTo(held, active, drafts, |active|)
  {
    assert forall i :: 0 <= i < |active| ==> HasHistory(ctx, active[i]);
    AllGrow(held, active, drafts, |active|);
  }

  lemma StepDraws(e: Env, s: Sched, k: Kv, k': Kv, log: seq<Emit>, outs: seq<Token>)
    requires Sane(e, s, k, log) && AllRunning(s, 0) && Formed(s.active) && InWindow(s.active, e.maxSeq)
    requires Drawn(e.m, k.ctx, RowsOf(s.active), s.active, SeedsOf(s.active), outs)
    requires var rows := RowsOf(s.active);
             k' == Kv(FeedRows(k.ctx, rows, |rows|), k.shared, Grow(k.held, rows, |rows|))
    ensures Sane(e, s, k', log) && AllMayCommit(e, s, k', outs, 0)
  {
    BatchLayout(e, s, k, log);
    PlainFed(e, s, k, k', log);
    forall i | 0 <= i < |s.active| ensures MayCommit(e, s.active[i], k'.ctx[s.active[i].slot], outs[i]) {
      DrawnMayCommit(e, s, k, k', log, i, outs);
    }
  }

  /**
   Recomputing a preempted sequence draws its next token by temperature alone, while a decode step
   in an undisturbed batch takes the path the whole batch calls for. For a sequence of any batch the
   two agree for every model, cache and seed exactly when it is greedy or nobody in the batch needs
   top-k.
   */
  lemma PreemptionInvisibleIff(active: seq<CbSeq>, i: nat)
    requires i < |active|
    ensures (forall m: Model, kv: seq<Entry>, seed: nat ::
               PathPick(PathOf(active), m, kv, active[i].params, seed) == PickTemp(m, kv, active[i].params.temp, seed))
            <==> active[i].params.temp <= 0.0 || forall x :: x in active ==> !x.params.NeedsTopK()
  {
    var x := active[i];
    assert x in active;
    if x.params.temp > 0.0 && PathOf(active) == TopK {
      var m := Model((_, _, _) => 0, _ => [], (_, _, _) => 0, (_, _, _) => 1);
      assert PathPick(PathOf(active), m, [], x.params, 0) != PickTemp(m, [], x.params.temp, 0);
    }
  }

  /**
   Resuming from the host copy draws the next token by the sequence's own parameters. That agrees with an
   undisturbed batch, for every model, cache and seed, exactly when the sequence is greedy, needs top-k
   itself, or nobody in the batch does.
   */
  lemma SwapInvisibleIff(active: seq<CbSeq>, i: nat)
    requires i < |active|
    ensures (forall m: Model, kv: seq<Entry>, seed: nat ::
               PathPick(PathOf(active), m, kv, active[i].params, seed) == PickOwn(m, kv, active[i].params, seed))
            <==> active[i].params.temp <= 0.0 || active[i].params.NeedsTopK() || forall x :: x in active ==> !x.params.NeedsTopK()
  {
    var x := active[i];
    assert x in active;
    if x.params.temp > 0.0 && !x.params.NeedsTopK() && PathOf(active) == TopK {
      var m := Model((_, _, _) => 0, _ => [], (_, _, _) => 0, (_, _, _) => 1);
      assert PathPick(PathOf(active), m, [], x.params, 0) != PickOwn(m, [], x.params, 0);
    }
  }

  /** The batch of one: its path is the sequence's own choice. */
  lemma AlonePath(x: CbSeq, m: Model, kv: seq<Entry>, seed: nat)
    ensures PathPick(PathOf([x]), m, kv, x.params, seed) == PickOwn(m, kv, x.params, seed)
  {
    assert x in [x];
  }
}
