/**
 What one request must produce: its solo generation, and how a shared emission log relates to it.
 */
module Generation {
  import opened Wrappers
  import opened KvModel

  datatype Request = Request(prompt: seq<Token>, maxTokens: nat, eos: Token, params: SamplingParams, seed: nat)

  /** One produced token; `done` marks the last one of its request. */
  datatype Emit = Emit(id: nat, token: Token, done: bool)

  /** Generation ends at the stop token or once the budget is used up; at least one token is produced. */
  predicate Stopped(r: Request, gen: seq<Token>) {
    gen != [] && (gen[|gen| - 1] == r.eos || |gen| >= r.maxTokens)
  }

  /**
   The token the request run alone draws after `gen`, over the whole history: the first by prefill, that is by
   temperature, the others by decoding with its own parameters.
   */
  function NextToken(m: Model, r: Request, gen: seq<Token>): Token {
    var kv, seed := KvOf(m, r.prompt + gen), StepSeed(r.seed, |gen|);
    if gen == [] then PickTemp(m, kv, r.params.temp, seed) else PickOwn(m, kv, r.params, seed)
  }

  /** Running the request alone from `gen` to its end. */
  function SoloFrom(m: Model, r: Request, gen: seq<Token>): seq<Token>
    decreases Max(1, r.maxTokens) - |gen|
  {
    if Stopped(r, gen) || |gen| >= Max(1, r.maxTokens) then gen
    else SoloFrom(m, r, gen + [NextToken(m, r, gen)])
  }

  /** The request's reference output. */
  function Solo(m: Model, r: Request): seq<Token> {
    SoloFrom(m, r, [])
  }

  /** `gen` is a stretch of the reference output, read from its start. */
  ghost predicate OnTrack(m: Model, r: Request, gen: seq<Token>) {
    SoloFrom(m, r, gen) == Solo(m, r)
  }

  lemma {:induction false} SoloExtends(m: Model, r: Request, gen: seq<Token>)
    ensures gen <= SoloFrom(m, r, gen)
    decreases Max(1, r.maxTokens) - |gen|
  {
    if !(Stopped(r, gen) || |gen| >= Max(1, r.maxTokens)) {
      SoloExtends(m, r, gen + [NextToken(m, r, gen)]);
    }
  }

  lemma StepOnTrack(m: Model, r: Request, gen: seq<Token>)
    requires OnTrack(m, r, gen) && !Stopped(r, gen)
    ensures OnTrack(m, r, gen + [NextToken(m, r, gen)])
  {
  }

  /** The reference output ends exactly where generation stops, and nowhere earlier. */
  lemma {:induction false} SoloStops(m: Model, r: Request, gen: seq<Token>)
    requires |gen| < Max(1, r.maxTokens) || Stopped(r, gen)
    ensures Stopped(r, SoloFrom(m, r, gen))
    ensures forall n :: |gen| <= n < |SoloFrom(m, r, gen)| ==> !Stopped(r, SoloFrom(m, r, gen)[..n])
    ensures |SoloFrom(m, r, gen)| <= Max(|gen|, Max(1, r.maxTokens))
    decreases Max(1, r.maxTokens) - |gen|
  {
    if !Stopped(r, gen) {
      var g := gen + [NextToken(m, r, gen)];
      SoloExtends(m, r, g);
      SoloStops(m, r, g);
      var solo := SoloFrom(m, r, gen);
      forall n | |gen| <= n < |solo| ensures !Stopped(r, solo[..n]) {
        if n == |gen| {
          assert solo[..n] == g[..n] == gen;
        }
      }
    } else {
      assert SoloFrom(m, r, gen)[..|gen|] == gen;
    }
  }

  /** Each token of the reference output is the one drawn after the tokens before it. */
  lemma {:induction false} SoloTokens(m: Model, r: Request, gen: seq<Token>, n: nat)
    requires |gen| <= n < |SoloFrom(m, r, gen)|
    ensures SoloFrom(m, r, gen)[n] == NextToken(m, r, SoloFrom(m, r, gen)[..n])
    decreases Max(1, r.maxTokens) - |gen|
  {
    var g := gen + [NextToken(m, r, gen)];
    SoloExtends(m, r, g);
    var solo := SoloFrom(m, r, gen);
    if n == |gen| {
      assert solo[..n] == g[..n] == gen;
      assert solo[n] == g[n];
    } else {
      SoloTokens(m, r, g, n);
    }
  }

  /**
   How each token of a generation is drawn: at temperature zero the first of the greatest logits; otherwise with a
   seed of its own, the first token and those of a request without top-k and top-p from the whole
   distribution, any other from the top candidates.
   */
  lemma {:induction false} SoloDraws(m: Model, r: Request, n: nat)
    requires n < |Solo(m, r)|
    ensures var kv := KvOf(m, r.prompt + Solo(m, r)[..n]);
            var seed := (r.seed + n * 0x9E3779B1) % 0x1_0000_0000;
            var capped := r.params.topK > 0 || 0.0 < r.params.topP < 1.0;
            Solo(m, r)[n] == if r.params.temp <= 0.0 then ArgMax(m.logits(kv))
                             else if n > 0 && capped then m.nucleus(kv, r.params, seed)
                             else m.gumbel(kv, r.params.temp, seed)
  {
    SoloTokens(m, r, [], n);
  }

  // ---------------------------------------------------------------- the emission log

  /** The tokens request `id` received in the first n entries. */
  ghost function TokensTo(log: seq<Emit>, id: nat, n: nat): seq<Token>
    requires n <= |log|
  {
    if n == 0 then []
    else TokensTo(log, id, n - 1) + (if log[n - 1].id == id then [log[n - 1].token] else [])
  }

  ghost function TokensOf(log: seq<Emit>, id: nat): seq<Token> {
    TokensTo(log, id, |log|)
  }

  lemma {:induction false} TokensPrefix(log: seq<Emit>, more: seq<Emit>, id: nat, n: nat)
    requires n <= |log|
    ensures TokensTo(log + more, id, n) == TokensTo(log, id, n)
  {
    if n > 0 {
      TokensPrefix(log, more, id, n - 1);
    }
  }

  lemma TokensAppend(log: seq<Emit>, e: Emit, id: nat)
    ensures TokensOf(log + [e], id) == TokensOf(log, id) + (if e.id == id then [e.token] else [])
  {
    TokensPrefix(log, [e], id, |log|);
  }

  /** How a run goes: whether no request of it needs top-k, and whether evicted sequences keep their KV on the host. */
  datatype Mode = Mode(noTopK: bool, swap: bool)

  /**
   A request's stream must equal the reference: greedy always, any temperature when nobody needs top-k,
   and a top-k request when eviction keeps its KV.
   */
  predicate Exact(r: Request, mode: Mode) {
    r.params.temp <= 0.0 || mode.noTopK || (mode.swap && r.params.NeedsTopK())
  }

  /** What the log promises of request `id`. */
  ghost predicate StreamOk(m: Model, mode: Mode, reqs: map<nat, Request>, log: seq<Emit>, id: nat)
    requires id in reqs
  {
    && |TokensOf(log, id)| <= Max(1, reqs[id].maxTokens)
    && (Exact(reqs[id], mode) ==> OnTrack(m, reqs[id], TokensOf(log, id)))
  }

  /** Entry i names a known request and is marked done exactly when the request stops there. */
  ghost predicate EntryOk(reqs: map<nat, Request>, log: seq<Emit>, i: nat)
    requires i < |log|
  {
    && log[i].id in reqs
    && (log[i].done <==> Stopped(reqs[log[i].id], TokensTo(log, log[i].id, i + 1)))
  }

  ghost predicate LogOk(m: Model, mode: Mode, reqs: map<nat, Request>, log: seq<Emit>) {
    && (forall i :: 0 <= i < |log| ==> EntryOk(reqs, log, i))
    && (forall i, j :: 0 <= i < j < |log| && log[i].done ==> log[j].id != log[i].id)
    && (forall id :: id in reqs ==> StreamOk(m, mode, reqs, log, id))
  }

  /** A done entry is the last of its request, so a request that has not stopped has none. */
  lemma {:induction false} NoDoneTo(reqs: map<nat, Request>, log: seq<Emit>, id: nat, n: nat)
    requires n <= |log| && id in reqs
    requires forall i :: 0 <= i < n ==> EntryOk(reqs, log, i)
    requires forall i, j :: 0 <= i < j < n && log[i].done ==> log[j].id != log[i].id
    requires !Stopped(reqs[id], TokensTo(log, id, n))
    ensures forall i :: 0 <= i < n && log[i].id == id ==> !log[i].done
  {
    if n > 0 {
      if log[n - 1].id == id {
        assert EntryOk(reqs, log, n - 1);
      } else {
        NoDoneTo(reqs, log, id, n - 1);
      }
    }
  }

  lemma {:induction false} NoEntry(log: seq<Emit>, id: nat, n: nat)
    requires n <= |log| && forall i :: 0 <= i < n ==> log[i].id != id
    ensures TokensTo(log, id, n) == []
  {
    if n > 0 {
      NoEntry(log, id, n - 1);
    }
  }

  /** Emitting the next token of a running request keeps the log good. */
  lemma EmitOk(m: Model, mode: Mode, reqs: map<nat, Request>, log: seq<Emit>, id: nat, tok: Token)
    requires LogOk(m, mode, reqs, log) && id in reqs
    requires !Stopped(reqs[id], TokensOf(log, id))
    requires Exact(reqs[id], mode) ==> tok == NextToken(m, reqs[id], TokensOf(log, id))
    ensures var e := Emit(id, tok, Stopped(reqs[id], TokensOf(log, id) + [tok]));
            LogOk(m, mode, reqs, log + [e])
  {
    var r := reqs[id];
    var gen := TokensOf(log, id);
    var e := Emit(id, tok, Stopped(r, gen + [tok]));
    var log' := log + [e];
    NoDoneTo(reqs, log, id, |log|);
    forall i | 0 <= i < |log'| ensures EntryOk(reqs, log', i) {
      TokensAppend(log, e, id);
      if i < |log| {
        assert EntryOk(reqs, log, i);
        TokensPrefix(log, [e], log[i].id, i + 1);
      }
    }
    forall id' | id' in reqs ensures StreamOk(m, mode, reqs, log', id') {
      TokensAppend(log, e, id');
      assert StreamOk(m, mode, reqs, log, id');
      if id' == id {
        assert TokensOf(log', id) == gen + [tok];
        if Exact(r, mode) {
          StepOnTrack(m, r, gen);
        }
      } else {
        assert TokensOf(log', id') == TokensOf(log, id');
      }
    }
  }

  /** A fresh request has produced nothing and is on track. */
  lemma FreshOk(m: Model, mode: Mode, reqs: map<nat, Request>, log: seq<Emit>, id: nat, r: Request)
    requires LogOk(m, mode, reqs, log) && id !in reqs
    ensures LogOk(m, mode, reqs[id := r], log)
    ensures TokensOf(log, id) == []
  {
    forall i | 0 <= i < |log| ensures log[i].id != id && EntryOk(reqs[id := r], log, i) {
      assert EntryOk(reqs, log, i);
    }
    NoEntry(log, id, |log|);
    var reqs' := reqs[id := r];
    forall id' | id' in reqs' ensures StreamOk(m, mode, reqs', log, id') {
      if id' != id {
        assert StreamOk(m, mode, reqs, log, id');
      }
    }
  }

  /**
   What a reader of the log may conclude: the tokens of an exact request are a prefix of its
   reference output; they are the whole of it exactly when the request has been marked done; and
   nothing follows the done mark.
   */
  lemma StreamMeaning(m: Model, mode: Mode, reqs: map<nat, Request>, log: seq<Emit>, id: nat)
    requires LogOk(m, mode, reqs, log) && id in reqs && Exact(reqs[id], mode)
    ensures TokensOf(log, id) <= Solo(m, reqs[id])
    ensures (exists i :: 0 <= i < |log| && log[i].id == id && log[i].done) <==> TokensOf(log, id) == Solo(m, reqs[id])
    ensures forall i, j :: 0 <= i < j < |log| && log[i].id == id && log[i].done ==> log[j].id != id
  {
    var r, gen := reqs[id], TokensOf(log, id);
    assert StreamOk(m, mode, reqs, log, id);
    SoloExtends(m, r, gen);
    SoloStops(m, r, []);
    assert gen == Solo(m, r) <==> Stopped(r, gen) by {
      if |gen| < |Solo(m, r)| {
        assert Solo(m, r)[..|gen|] == gen;
      }
    }
    if !Stopped(r, gen) {
      NoDoneTo(reqs, log, id, |log|);
    } else {
      LastDone(reqs, log, id, |log|);
    }
  }

  lemma {:induction false} LastDone(reqs: map<nat, Request>, log: seq<Emit>, id: nat, n: nat)
    requires n <= |log| && id in reqs
    requires forall i :: 0 <= i < n ==> EntryOk(reqs, log, i)
    requires Stopped(reqs[id], TokensTo(log, id, n))
    ensures exists i :: 0 <= i < n && log[i].id == id && log[i].done
  {
    if n > 0 {
      if log[n - 1].id == id {
        assert EntryOk(reqs, log, n - 1);
      } else {
        LastDone(reqs, log, id, n - 1);
      }
    }
  }
}
