/** The CPU backend's position counter over the transformer's KV cache, and its chunked prefill. */
module CandleBackend {
  import opened Wrappers
  import opened KvModel
  import opened Transformer

  datatype BackendError = EmptyInput | ContextOverflow

  class CandleCpuBackend {
    const model: ModelWeights
    var indexPos: nat

    /** The position counter agrees with the cache. */
    ghost predicate Valid()
      reads this, model
    {
      model.Valid() && indexPos == |model.ctx|
    }

    constructor Loaded(net: Network)
      ensures Valid() && fresh(model) && model.net == net && model.ctx == []
    {
      var w := new ModelWeights.Load(net);
      model := w;
      indexPos := 0;
    }

    function Position(): nat
      reads this
    {
      indexPos
    }

    method ResetPosition()
      requires model.Valid()
      modifies this, model
      ensures Valid() && model.ctx == []
    {
      indexPos := 0;
      model.ClearKvCache();
    }

    /** The counter is set without looking at the cache, so it agrees with it only when n is no longer than the cache. */
    method TruncateTo(n: nat)
      requires Valid()
      modifies this, model
      ensures model.Valid() && model.ctx == old(model.ctx)[..Min(n, |old(model.ctx)|)] && indexPos == n
      ensures Valid() <==> n <= |old(model.ctx)|
    {
      indexPos := n;
      model.TruncateKvCache(n);
    }

    /**
     Feeds the tokens in chunks against the growing cache. The result is that of one forward over
     everything, for every chunk size; on overflow the chunks that fitted stay cached.
     */
    method ForwardLogits(tokens: seq<Token>, chunkSetting: nat) returns (r: Result<seq<real>, BackendError>)
      requires Valid()
      modifies this, model
      ensures Valid() && old(model.ctx) <= model.ctx <= old(model.ctx) + tokens
      ensures r.Ok? <==> tokens != [] && (|old(model.ctx)| + |tokens| <= model.net.maxSeq || model.net.nLayers == 0)
      ensures r.Ok? ==> model.ctx == old(model.ctx) + tokens && r.value == Logits(model.net, model.ctx)
    {
      if tokens == [] {
        return Err(EmptyInput);
      }
      var chunk := Max(chunkSetting, 16);
      var logits := [];
      var i := 0;
      while i < |tokens|
        invariant i <= |tokens| && Valid()
        invariant model.ctx == old(model.ctx) + tokens[..i]
        invariant i > 0 ==> logits == Logits(model.net, model.ctx)
        invariant i > 0 ==> |old(model.ctx)| + i <= model.net.maxSeq || model.net.nLayers == 0
      {
        var end := Min(i + chunk, |tokens|);
        var piece := tokens[i..end];
        assert tokens[..i] + piece == tokens[..end];
        var l := model.ForwardWithCallback(piece, indexPos);
        if l.None? {
          return Err(ContextOverflow);
        }
        indexPos := indexPos + |piece|;
        logits := l.value;
        i := end;
      }
      assert tokens[..i] == tokens;
      return Ok(logits);
    }

    /** One logit row per fed token, each after the tokens up to it. */
    method ForwardAllLogits(tokens: seq<Token>) returns (r: Result<seq<seq<real>>, BackendError>)
      requires Valid() && tokens != []
      modifies this, model
      ensures Valid() && model.ctx == if r.Ok? then old(model.ctx) + tokens else old(model.ctx)
      ensures r.Ok? <==> |old(model.ctx)| + |tokens| <= model.net.maxSeq || model.net.nLayers == 0
      ensures r.Ok? ==> |r.value| == |tokens|
      ensures r.Ok? ==> forall i :: 0 <= i < |tokens| ==> r.value[i] == Logits(model.net, old(model.ctx) + tokens[..i + 1])
    {
      var rows := model.ForwardAllPositions(tokens, indexPos);
      if rows.None? {
        return Err(ContextOverflow);
      }
      indexPos := indexPos + |tokens|;
      return Ok(rows.value);
    }
  }

  // ---------------------------------------------------------------- prompt-prefix reuse

  /** Length of the longest common prefix. */
  function LcpLen(a: seq<Token>, b: seq<Token>): (n: nat)
    ensures n <= |a| && n <= |b| && a[..n] == b[..n]
    ensures n < |a| && n < |b| ==> a[n] != b[n]
  {
    if a == [] || b == [] || a[0] != b[0] then 0
    else
      var n := LcpLen(a[1..], b[1..]);
      assert a[..n + 1] == [a[0]] + a[1..][..n];
      assert b[..n + 1] == [b[0]] + b[1..][..n];
      n + 1
  }

  /**
   Reuses the cached tokens the prompt starts with, but never all of the prompt: its last token is
   always fed again for its logits. Returns where prefill starts and the shortened token record.
   */
  method PreparePromptCache(backend: CandleCpuBackend, cached: seq<Token>, prompt: seq<Token>)
    returns (start: nat, kept: seq<Token>)
    requires backend.Valid() && cached <= backend.model.ctx
    modifies backend, backend.model
    ensures backend.Valid() && start <= |prompt| && (prompt != [] ==> start < |prompt|)
    ensures backend.model.ctx == prompt[..start] == kept
    ensures start == Min(LcpLen(prompt, cached), if prompt == [] then 0 else |prompt| - 1)
  {
    var lcp := LcpLen(prompt, cached);
    var reuse := Min(lcp, if prompt == [] then 0 else |prompt| - 1);
    if reuse == 0 {
      backend.ResetPosition();
      return 0, [];
    }
    assert backend.model.ctx[..reuse] == cached[..lcp][..reuse] == prompt[..lcp][..reuse] == prompt[..reuse];
    backend.TruncateTo(reuse);
    return reuse, cached[..reuse];
  }

  /** Prefix reuse refines a cold prefill: same success, same cache, same logits. */
  method CachedPrefill(backend: CandleCpuBackend, cached: seq<Token>, prompt: seq<Token>, chunkSetting: nat)
    returns (r: Result<seq<real>, BackendError>, kept: seq<Token>)
    requires backend.Valid() && cached <= backend.model.ctx
    modifies backend, backend.model
    ensures backend.Valid() && kept <= backend.model.ctx <= prompt
    ensures r.Ok? <==> prompt != [] && (|prompt| <= backend.model.net.maxSeq || backend.model.net.nLayers == 0)
    ensures r.Ok? ==> backend.model.ctx == prompt && r.value == Logits(backend.model.net, prompt)
  {
    var start;
    start, kept := PreparePromptCache(backend, cached, prompt);
    assert prompt[..start] + prompt[start..] == prompt;
    r := backend.ForwardLogits(prompt[start..], chunkSetting);
  }

  /** Truncating an empty cache to five positions leaves the counter at five. */
  method TruncateBeyond(net: Network) returns (backend: CandleCpuBackend)
    ensures backend.model.Valid() && backend.model.ctx == [] && backend.indexPos == 5 && !backend.Valid()
  {
    backend := new CandleCpuBackend.Loaded(net);
    backend.TruncateTo(5);
  }
}
