/**
 Classic speculative decoding: a draft model proposes, the main model verifies in one forward, both
 caches are rolled back to what was accepted. The output is the main model's greedy stream.
 */
module SpecDecode {
  import opened Wrappers
  import opened KvModel
  import opened Transformer
  import opened CandleBackend

  /** The main model's greedy choice after a context. */
  function GreedyNext(net: Network, ctx: seq<Token>): Token
    requires ctx != []
  {
    ArgMax(Logits(net, ctx))
  }

  /** The next n greedy tokens. */
  function GreedyRun(net: Network, ctx: seq<Token>, n: nat): (g: seq<Token>)
    requires ctx != []
    ensures |g| == n
  {
    if n == 0 then []
    else
      var g := GreedyRun(net, ctx, n - 1);
      g + [GreedyNext(net, ctx + g)]
  }

  lemma {:induction false} GreedyRunPrefix(net: Network, ctx: seq<Token>, k: nat, n: nat)
    requires ctx != [] && k <= n
    ensures GreedyRun(net, ctx, n)[..k] == GreedyRun(net, ctx, k)
  {
    if k < n {
      GreedyRunPrefix(net, ctx, k, n - 1);
      assert GreedyRun(net, ctx, n)[..k] == GreedyRun(net, ctx, n - 1)[..k];
    }
  }

  /** A sequence whose every token is the greedy choice after the ones before it is the greedy run. */
  lemma {:induction false} IsGreedyRun(net: Network, ctx: seq<Token>, g: seq<Token>, n: nat)
    requires ctx != [] && n <= |g| && forall i :: 0 <= i < n ==> g[i] == GreedyNext(net, ctx + g[..i])
    ensures g[..n] == GreedyRun(net, ctx, n)
  {
    if n > 0 {
      IsGreedyRun(net, ctx, g, n - 1);
      assert g[..n] == g[..n - 1] + [g[n - 1]];
    }
  }

  // ---------------------------------------------------------------- verification

  /**
   Accepts drafts while they are the greedy choice of the row before them; then the row at the
   first disagreement, or the last row, gives one more token.
   */
  method VerifyDrafts(drafts: seq<Token>, rows: seq<seq<real>>) returns (accepted: nat, bonus: Token)
    ensures accepted <= |drafts| && accepted <= |rows|
    ensures forall i :: 0 <= i < accepted ==> drafts[i] == ArgMax(rows[i])
    ensures if accepted < |drafts| && accepted < |rows| then bonus == ArgMax(rows[accepted]) != drafts[accepted]
            else bonus == if rows == [] then 0 else ArgMax(rows[|rows| - 1])
  {
    accepted := 0;
    while accepted < |drafts| && accepted < |rows|
      invariant accepted <= |drafts| && accepted <= |rows|
      invariant forall i :: 0 <= i < accepted ==> drafts[i] == ArgMax(rows[i])
    {
      var arg := ArgMax(rows[accepted]);
      if arg != drafts[accepted] {
        return accepted, arg;
      }
      accepted := accepted + 1;
    }
    bonus := if rows == [] then 0 else ArgMax(rows[|rows| - 1]);
  }

  /** With a row per position, the accepted drafts and the bonus are the greedy continuation. */
  lemma VerifiedIsGreedy(net: Network, ctx: seq<Token>, drafts: seq<Token>, rows: seq<seq<real>>, accepted: nat, bonus: Token)
    requires ctx != [] && |rows| == |drafts| + 1 && accepted <= |drafts|
    requires forall i :: 0 <= i < |rows| ==> rows[i] == Logits(net, ctx + drafts[..i])
    requires forall i :: 0 <= i < accepted ==> drafts[i] == ArgMax(rows[i])
    requires bonus == ArgMax(rows[accepted])
    ensures drafts[..accepted] + [bonus] == GreedyRun(net, ctx, accepted + 1)
  {
    forall i | 0 <= i < accepted ensures drafts[i] == GreedyNext(net, ctx + drafts[..i]) {
      assert rows[i] == Logits(net, ctx + drafts[..i]);
    }
    IsGreedyRun(net, ctx, drafts, accepted);
  }

  // ---------------------------------------------------------------- one iteration

  datatype SpecIterResult = SpecIterResult(committed: seq<Token>, accepted: nat, draftProposed: nat,
                                           nextMainLogit: seq<real>, nextDraftLogit: seq<real>)

  /** The draft model proposes k tokens, feeding each to itself. */
  method Propose(draft: CandleCpuBackend, lastDraftLogit: seq<real>, k: nat, chunk: nat)
    returns (r: Result<seq<Token>, BackendError>)
    requires draft.Valid()
    modifies draft, draft.model
    ensures draft.Valid() && old(draft.model.ctx) <= draft.model.ctx
    ensures r.Ok? ==> |r.value| == k && draft.model.ctx == old(draft.model.ctx) + r.value
    ensures r.Ok? && old(draft.model.ctx) != [] && lastDraftLogit == Logits(draft.model.net, old(draft.model.ctx)) ==>
              r.value == GreedyRun(draft.model.net, old(draft.model.ctx), k)
    ensures |old(draft.model.ctx)| + k <= draft.model.net.maxSeq ==> r.Ok?
  {
    var drafts: seq<Token> := [];
    var logit := lastDraftLogit;
    ghost var synced := draft.model.ctx != [] && logit == Logits(draft.model.net, draft.model.ctx);
    while |drafts| < k
      invariant |drafts| <= k && draft.Valid() && draft.model.ctx == old(draft.model.ctx) + drafts
      invariant synced ==> drafts == GreedyRun(draft.model.net, old(draft.model.ctx), |drafts|)
      invariant synced ==> logit == Logits(draft.model.net, draft.model.ctx)
    {
      var d := ArgMax(logit);
      var l := draft.ForwardLogits([d], chunk);
      if l.Err? {
        return Err(l.error);
      }
      Assoc(old(draft.model.ctx), drafts, [d]);
      drafts := drafts + [d];
      logit := l.value;
    }
    return Ok(drafts);
  }

  /** The drafts the main model agrees with: the first against t, each later one against the row before it. */
  method Agreed(drafts: seq<Token>, t: Token, rows: seq<seq<real>>) returns (accepted: nat)
    requires drafts != [] && |rows| == |drafts|
    ensures accepted <= |drafts| && (accepted > 0 ==> drafts[0] == t)
    ensures forall i :: 1 <= i < accepted ==> drafts[i] == ArgMax(rows[i - 1])
    ensures accepted < |drafts| ==> drafts[accepted] != if accepted == 0 then t else ArgMax(rows[accepted - 1])
  {
    accepted := 0;
    if drafts[0] == t {
      accepted := 1;
      while accepted < |drafts| && ArgMax(rows[accepted - 1]) == drafts[accepted]
        invariant 1 <= accepted <= |drafts|
        invariant forall i :: 1 <= i < accepted ==> drafts[i] == ArgMax(rows[i - 1])
      {
        accepted := accepted + 1;
      }
    }
  }

  lemma {:induction false} AgreedIsGreedy(net: Network, ctx: seq<Token>, t: Token, drafts: seq<Token>, rows: seq<seq<real>>, accepted: nat, corrected: Token)
    requires ctx != [] && t == GreedyNext(net, ctx) && |rows| == |drafts| && accepted <= |drafts|
    requires forall i :: 0 <= i < |rows| ==> rows[i] == Logits(net, ctx + drafts[..i + 1])
    requires accepted > 0 ==> drafts[0] == t
    requires forall i :: 1 <= i < accepted ==> drafts[i] == ArgMax(rows[i - 1])
    requires corrected == if accepted == 0 then t else ArgMax(rows[accepted - 1])
    ensures drafts[..accepted] + [corrected] == GreedyRun(net, ctx, accepted + 1)
  {
    assert ctx + drafts[..0] == ctx;
    forall i | 0 <= i < accepted ensures drafts[i] == GreedyNext(net, ctx + drafts[..i]) {
      if i > 0 {
        assert rows[i - 1] == Logits(net, ctx + drafts[..i]);
      }
    }
    IsGreedyRun(net, ctx, drafts, accepted);
  }

  /** Two different backends over two different caches. */
  predicate Apart(main: CandleCpuBackend, draft: CandleCpuBackend) {
    main != draft && main.model != draft.model
  }

  /**
   One iteration from synchronised caches and fresh main logits. Commits the next accepted + 1
   greedy tokens of the main model whatever the draft model proposes, and leaves both caches at the
   committed history with fresh logits. A failed forward leaves both caches extending the history.
   */
  method SpecIter(main: CandleCpuBackend, draft: CandleCpuBackend, lastMainLogit: seq<real>, lastDraftLogit: seq<real>,
                  k: nat, chunk: nat) returns (r: Result<SpecIterResult, BackendError>)
    requires Apart(main, draft) && main.Valid() && draft.Valid() && k >= 1
    requires main.model.ctx == draft.model.ctx != [] && lastMainLogit == Logits(main.model.net, main.model.ctx)
    modifies main, main.model, draft, draft.model
    ensures main.Valid() && draft.Valid()
    ensures old(main.model.ctx) <= main.model.ctx && old(main.model.ctx) <= draft.model.ctx
    ensures r.Ok? ==>
      && r.value.accepted <= k == r.value.draftProposed
      && r.value.committed == GreedyRun(main.model.net, old(main.model.ctx), r.value.accepted + 1)
      && main.model.ctx == draft.model.ctx == old(main.model.ctx) + r.value.committed
      && r.value.nextMainLogit == Logits(main.model.net, main.model.ctx)
      && r.value.nextDraftLogit == Logits(draft.model.net, draft.model.ctx)
    ensures |old(main.model.ctx)| + k + 1 <= Min(main.model.net.maxSeq, draft.model.net.maxSeq) ==> r.Ok?
  {
    ghost var ctx := main.model.ctx;
    var t := ArgMax(lastMainLogit);
    var p := Propose(draft, lastDraftLogit, k, chunk);
    if p.Err? {
      return Err(p.error);
    }
    var drafts := p.value;
    var rows := main.ForwardAllLogits(drafts);
    if rows.Err? {
      return Err(rows.error);
    }
    var accepted := Agreed(drafts, t, rows.value);
    var corrected := if accepted == 0 then t
                     else if accepted < |drafts| then ArgMax(rows.value[accepted - 1])
                     else ArgMax(rows.value[|drafts| - 1]);
    AgreedIsGreedy(main.model.net, ctx, t, drafts, rows.value, accepted, corrected);
    r := RollBack(main, draft, ctx, drafts, accepted, corrected, chunk);
  }

  /** Drops the rejected drafts from both caches and feeds both the corrected token. */
  method RollBack(main: CandleCpuBackend, draft: CandleCpuBackend, ghost ctx: seq<Token>, drafts: seq<Token>, accepted: nat,
                  corrected: Token, chunk: nat) returns (r: Result<SpecIterResult, BackendError>)
    requires Apart(main, draft) && main.Valid() && draft.Valid() && accepted <= |drafts|
    requires main.model.ctx == draft.model.ctx == ctx + drafts
    modifies main, main.model, draft, draft.model
    ensures main.Valid() && draft.Valid() && ctx <= main.model.ctx && ctx <= draft.model.ctx
    ensures r.Ok? ==>
      && r.value.accepted == accepted && r.value.draftProposed == |drafts|
      && r.value.committed == drafts[..accepted] + [corrected]
      && main.model.ctx == draft.model.ctx == ctx + r.value.committed
      && r.value.nextMainLogit == Logits(main.model.net, main.model.ctx)
      && r.value.nextDraftLogit == Logits(draft.model.net, draft.model.ctx)
    ensures |ctx| + accepted + 1 <= Min(main.model.net.maxSeq, draft.model.net.maxSeq) ==> r.Ok?
  {
    var target := main.Position() - (|drafts| - accepted);
    RolledBack(ctx, drafts, accepted);
    main.TruncateTo(target);
    draft.TruncateTo(target);
    Assoc(ctx, drafts[..accepted], [corrected]);
    var nextMain := main.ForwardLogits([corrected], chunk);
    if nextMain.Err? {
      return Err(nextMain.error);
    }
    var nextDraft := draft.ForwardLogits([corrected], chunk);
    if nextDraft.Err? {
      return Err(nextDraft.error);
    }
    return Ok(SpecIterResult(drafts[..accepted] + [corrected], accepted, |drafts|, nextMain.value, nextDraft.value));
  }

  lemma RolledBack(ctx: seq<Token>, drafts: seq<Token>, accepted: nat)
    requires accepted <= |drafts|
    ensures (ctx + drafts)[..|ctx + drafts| - (|drafts| - accepted)] == ctx + drafts[..accepted]
  {
  }

  // ---------------------------------------------------------------- a whole generation

  /** Plain greedy generation, cut before the first stop token and at the budget. */
  function Reference(net: Network, ctx: seq<Token>, maxTokens: nat, stops: set<Token>): (g: seq<Token>)
    requires ctx != []
    ensures |g| <= maxTokens
    decreases maxTokens
  {
    if maxTokens == 0 then []
    else
      var t := GreedyNext(net, ctx);
      if t in stops then [] else [t] + Reference(net, ctx + [t], maxTokens - 1, stops)
  }

  /** The reference is a stretch of the greedy run without stop tokens, as long as possible. */
  lemma {:induction false} ReferenceIsGreedy(net: Network, ctx: seq<Token>, maxTokens: nat, stops: set<Token>, i: nat)
    requires ctx != [] && i <= |Reference(net, ctx, maxTokens, stops)|
    ensures var g := Reference(net, ctx, maxTokens, stops);
            if i < |g| then g[i] == GreedyNext(net, ctx + g[..i]) && g[i] !in stops
            else i < maxTokens ==> GreedyNext(net, ctx + g[..i]) in stops
    decreases maxTokens
  {
    var g := Reference(net, ctx, maxTokens, stops);
    if i == 0 {
      assert ctx + g[..0] == ctx;
    } else {
      var t := GreedyNext(net, ctx);
      ReferenceIsGreedy(net, ctx + [t], maxTokens - 1, stops, i - 1);
      Shift(ctx, t, Reference(net, ctx + [t], maxTokens - 1, stops), i);
    }
  }

  lemma Shift(ctx: seq<Token>, t: Token, h: seq<Token>, i: nat)
    requires 0 < i <= |h| + 1
    ensures ctx + ([t] + h)[..i] == ctx + [t] + h[..i - 1]
    ensures i <= |h| ==> ([t] + h)[i] == h[i - 1]
  {
  }

  /** `gen` has been produced and the reference continues from it. */
  ghost predicate SoFar(net: Network, prompt: seq<Token>, gen: seq<Token>, maxTokens: nat, stops: set<Token>)
    requires prompt != []
  {
    |gen| <= maxTokens
    && Reference(net, prompt, maxTokens, stops) == gen + Reference(net, prompt + gen, maxTokens - |gen|, stops)
  }

  lemma {:induction false} SoFarNext(net: Network, prompt: seq<Token>, gen: seq<Token>, maxTokens: nat, stops: set<Token>, t: Token)
    requires prompt != [] && SoFar(net, prompt, gen, maxTokens, stops) && |gen| < maxTokens
    requires t == GreedyNext(net, prompt + gen)
    ensures t in stops ==> gen == Reference(net, prompt, maxTokens, stops)
    ensures t !in stops ==> SoFar(net, prompt, gen + [t], maxTokens, stops)
  {
    if t !in stops {
      Assoc(prompt, gen, [t]);
      Assoc(gen, [t], Reference(net, prompt + gen + [t], maxTokens - |gen| - 1, stops));
    }
  }

  datatype Finish = Stop | Error

  /** A pooled pair of backends and what the last request left recorded about their caches. */
  class BackendSlot {
    const backend: CandleCpuBackend
    const draft: CandleCpuBackend
    var promptCache: seq<Token>
    var draftPromptCache: seq<Token>

    /** The recorded tokens are a prefix of what is cached. */
    ghost predicate Valid()
      reads this, backend, backend.model, draft, draft.model
    {
      && Apart(backend, draft) && backend.Valid() && draft.Valid()
      && promptCache <= backend.model.ctx && draftPromptCache <= draft.model.ctx
    }

    constructor Pooled(mainNet: Network, draftNet: Network)
      ensures Valid() && fresh(backend) && fresh(backend.model) && fresh(draft) && fresh(draft.model)
    {
      var b := new CandleCpuBackend.Loaded(mainNet);
      var d := new CandleCpuBackend.Loaded(draftNet);
      backend, draft := b, d;
      promptCache, draftPromptCache := [], [];
    }

    /** Appends committed tokens until a stop token or the budget. */
    method Take(ghost prompt: seq<Token>, ghost ctx: seq<Token>, committed: seq<Token>, gen: seq<Token>, maxTokens: nat, stops: set<Token>)
      returns (gen': seq<Token>, hitEos: bool)
      requires prompt != [] && SoFar(backend.model.net, prompt, gen, maxTokens, stops) && |gen| < maxTokens
      requires ctx == prompt + gen && committed == GreedyRun(backend.model.net, ctx, |committed|) && committed != []
      ensures gen < gen' || hitEos
      ensures gen <= gen' && prompt + gen' <= ctx + committed
      ensures SoFar(backend.model.net, prompt, gen', maxTokens, stops)
      ensures hitEos ==> gen' == Reference(backend.model.net, prompt, maxTokens, stops)
      ensures !hitEos && |gen'| < maxTokens ==> prompt + gen' == ctx + committed
    {
      gen', hitEos := gen, false;
      var i := 0;
      PrefixEnds(gen, committed);
      while i < |committed|
        invariant i <= |committed| && |gen'| < maxTokens && !hitEos && gen' == gen + committed[..i]
        invariant SoFar(backend.model.net, prompt, gen', maxTokens, stops)
      {
        var t := committed[i];
        CommittedNext(backend.model.net, prompt, gen, committed, i);
        SoFarNext(backend.model.net, prompt, gen', maxTokens, stops, t);
        if t in stops {
          hitEos := true;
          break;
        }
        gen' := gen' + [t];
        i := i + 1;
        if |gen'| >= maxTokens {
          break;
        }
      }
      TakenSoFar(prompt, gen, committed, i);
    }

    /** Both caches hold the prompt: fresh logits from each, or an error that leaves the records valid. */
    method PrefillBoth(prompt: seq<Token>, chunk: nat) returns (r: Option<(seq<real>, seq<real>)>)
      requires Valid()
      modifies this, backend, backend.model, draft, draft.model
      ensures Valid()
      ensures r.Some? <==> prompt != [] && Fits(backend.model.net, |prompt|) && Fits(draft.model.net, |prompt|)
      ensures r.Some? ==> backend.model.ctx == draft.model.ctx == prompt
      ensures r.Some? ==> r.value.0 == Logits(backend.model.net, prompt)
    {
      var main;
      main, promptCache := CachedPrefill(backend, promptCache, prompt, chunk);
      if main.Err? {
        return None;
      }
      var d;
      d, draftPromptCache := CachedPrefill(draft, draftPromptCache, prompt, chunk);
      if d.Err? {
        return None;
      }
      return Some((main.value, d.value));
    }

    /**
     The whole speculative generation. It fails exactly on an empty prompt or one that does not fit
     either window. Otherwise its tokens start the plain greedy generation, and are all of it when
     prompt, budget and one round of drafts fit both windows, unless they end in a stop string. Stop
     strings are looked for after each round of at most six tokens.
     Either way the records stay valid.
     */
    method GenerateSpecDecode(prompt: seq<Token>, maxTokens: nat, stops: set<Token>,
                              stopHit: seq<Token> -> bool, chunk: nat)
      returns (gen: seq<Token>, finish: Finish, ghost rounds: seq<nat>)
      requires Valid()
      modifies this, backend, backend.model, draft, draft.model
      ensures Valid()
      ensures finish == Stop <==> prompt != [] && Fits(backend.model.net, |prompt|) && Fits(draft.model.net, |prompt|)
      ensures finish == Error ==> gen == []
      ensures finish == Stop ==> gen <= Reference(backend.model.net, prompt, maxTokens, stops)
      ensures finish == Stop && Roomy(prompt, maxTokens) ==> gen == Reference(backend.model.net, prompt, maxTokens, stops) || stopHit(gen)
      ensures finish == Stop ==> promptCache == draftPromptCache == prompt + gen
      ensures finish == Stop ==> InRounds(gen, rounds, stopHit)
    {
      gen, rounds := [], [];
      var logits := PrefillBoth(prompt, chunk);
      if logits.None? {
        return [], Error, [];
      }
      finish := Stop;
      var lastMain, lastDraft := logits.value.0, logits.value.1;
      assert prompt + gen == prompt;
      var over := false;
      while |gen| < maxTokens && !over
        invariant MidRun(prompt, gen, maxTokens, stops, stopHit, lastMain, over)
        invariant InRounds(gen, rounds, stopHit) && (!over ==> Unstopped(gen, rounds, stopHit))
        decreases maxTokens - |gen|, !over
      {
        ghost var before := gen;
        gen, over, lastMain, lastDraft := Iterate(prompt, gen, maxTokens, stops, stopHit, lastMain, lastDraft, chunk);
        RoundAdded(before, rounds, gen, stopHit, over);
        rounds := if gen == before then rounds else rounds + [|gen|];
      }
      promptCache := prompt + gen;
      draftPromptCache := prompt + gen;
    }

    /** Between iterations: the output so far is on track and recorded by both caches. */
    ghost predicate MidRun(prompt: seq<Token>, gen: seq<Token>, maxTokens: nat, stops: set<Token>, stopHit: seq<Token> -> bool,
                           lastMain: seq<real>, over: bool)
      reads this, backend, backend.model, draft, draft.model
    {
      && Apart(backend, draft) && backend.Valid() && draft.Valid() && prompt != []
      && SoFar(backend.model.net, prompt, gen, maxTokens, stops)
      && prompt + gen <= backend.model.ctx && prompt + gen <= draft.model.ctx
      && (over && Roomy(prompt, maxTokens) ==> gen == Reference(backend.model.net, prompt, maxTokens, stops) || stopHit(gen))
      && (!over && |gen| < maxTokens ==>
            backend.model.ctx == draft.model.ctx == prompt + gen && lastMain == Logits(backend.model.net, backend.model.ctx))
    }

    /** One speculative iteration, the tokens taken from it, and the stop strings looked for after it. */
    method Iterate(prompt: seq<Token>, gen: seq<Token>, maxTokens: nat, stops: set<Token>, stopHit: seq<Token> -> bool,
                   lastMain: seq<real>, lastDraft: seq<real>, chunk: nat)
      returns (gen': seq<Token>, over: bool, main': seq<real>, draft': seq<real>)
      requires MidRun(prompt, gen, maxTokens, stops, stopHit, lastMain, false) && |gen| < maxTokens
      modifies backend, backend.model, draft, draft.model
      ensures MidRun(prompt, gen', maxTokens, stops, stopHit, main', over)
      ensures gen <= gen' && (gen < gen' || over) && |gen'| <= |gen| + 6
      ensures !over ==> !stopHit(gen')
    {
      ghost var ctx := backend.model.ctx;
      var iter := SpecIter(backend, draft, lastMain, lastDraft, SPEC_K, chunk);
      if iter.Err? {
        return gen, true, lastMain, lastDraft;
      }
      main', draft' := iter.value.nextMainLogit, iter.value.nextDraftLogit;
      gen', over := Take(prompt, ctx, iter.value.committed, gen, maxTokens, stops);
      over := over || stopHit(gen');
    }

    /** Prompt, budget and one round of drafts fit both windows. */
    ghost predicate Roomy(prompt: seq<Token>, maxTokens: nat) {
      |prompt| + maxTokens + SPEC_K <= Min(backend.model.net.maxSeq, draft.model.net.maxSeq)
    }
  }

  const SPEC_K: nat := 5

  /** The output grew in rounds of at most six tokens to the given lengths, and no round but the last ended in a stop string. */
  ghost predicate InRounds(gen: seq<Token>, rounds: seq<nat>, stopHit: seq<Token> -> bool) {
    && |gen| == (if rounds == [] then 0 else rounds[|rounds| - 1])
    && (forall i :: 0 <= i < |rounds| ==> (if i == 0 then 0 else rounds[i - 1]) < rounds[i] <= (if i == 0 then 0 else rounds[i - 1]) + 6)
    && (forall i :: 0 <= i < |rounds| - 1 ==> rounds[i] <= |gen| && !stopHit(gen[..rounds[i]]))
  }

  /** Nor did the last. */
  ghost predicate Unstopped(gen: seq<Token>, rounds: seq<nat>, stopHit: seq<Token> -> bool) {
    rounds != [] ==> !stopHit(gen)
  }

  lemma RoundAdded(gen: seq<Token>, rounds: seq<nat>, gen': seq<Token>, stopHit: seq<Token> -> bool, over: bool)
    requires InRounds(gen, rounds, stopHit) && Unstopped(gen, rounds, stopHit)
    requires gen <= gen' && |gen'| <= |gen| + 6 && (over || !stopHit(gen'))
    ensures var more := if gen' == gen then rounds else rounds + [|gen'|];
            InRounds(gen', more, stopHit) && (!over ==> Unstopped(gen', more, stopHit))
  {
    if gen' != gen {
      var more := rounds + [|gen'|];
      forall i | 0 <= i < |more| - 1 ensures more[i] <= |gen'| && !stopHit(gen'[..more[i]]) {
        if i < |rounds| - 1 {
          assert gen'[..more[i]] == gen[..rounds[i]];
        } else {
          assert gen'[..more[i]] == gen;
        }
      }
    }
  }

  /** n tokens fit the network's window. */
  predicate Fits(net: Network, n: nat) {
    n <= net.maxSeq || net.nLayers == 0
  }

  lemma {:induction false} CommittedNext(net: Network, prompt: seq<Token>, gen: seq<Token>, committed: seq<Token>, i: nat)
    requires prompt != [] && i < |committed| && committed == GreedyRun(net, prompt + gen, |committed|)
    ensures committed[i] == GreedyNext(net, prompt + (gen + committed[..i]))
    ensures gen + committed[..i] + [committed[i]] == gen + committed[..i + 1]
  {
    GreedyRunPrefix(net, prompt + gen, i, |committed|);
    GreedyRunPrefix(net, prompt + gen, i + 1, |committed|);
    assert committed[..i + 1][i] == committed[i];
    Assoc(prompt, gen, committed[..i]);
    PrefixNext(gen, committed, i);
  }

  lemma TakenSoFar(prompt: seq<Token>, gen: seq<Token>, committed: seq<Token>, i: nat)
    requires i <= |committed|
    ensures prompt + (gen + committed[..i]) <= prompt + gen + committed
    ensures i == |committed| ==> prompt + (gen + committed[..i]) == prompt + gen + committed
  {
  }
}
