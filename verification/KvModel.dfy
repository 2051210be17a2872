/**
 A decoder-only language model seen through its KV cache.

 Running a token at position p computes one cache entry (the K and V rows of every layer)
 from the entries of positions 0..p-1, the position and the token; the next-token logits at p
 are computed from entries 0..p. Nothing else about the network is fixed: `embed` and `logits`
 and the two stochastic samplers are arbitrary functions.
 */
module KvModel {

  type Token = nat

  /** The bits of one position's K and V rows. */
  type Entry = nat

  datatype SamplingParams = SamplingParams(temp: real, topK: nat, topP: real) {
    /** Whether the top-K candidate path is needed (top-k set, or a proper nucleus). */
    predicate NeedsTopK() {
      topK > 0 || (0.0 < topP < 1.0)
    }
  }

  datatype Model = Model(
    embed: (seq<Entry>, nat, Token) -> Entry,
    logits: seq<Entry> -> seq<real>,
    gumbel: (seq<Entry>, real, nat) -> Token,
    nucleus: (seq<Entry>, SamplingParams, nat) -> Token)

  /** The index of the first maximum; 0 for an empty row. */
  function ArgMax(v: seq<real>): (k: nat)
    ensures v != [] ==> k < |v| && (forall j :: 0 <= j < |v| ==> v[j] <= v[k])
    ensures forall j :: 0 <= j < k < |v| ==> v[j] < v[k]
    ensures v == [] ==> k == 0
  {
    if |v| <= 1 then 0
    else
      var n := |v| - 1;
      var k := ArgMax(v[..n]);
      assert v[k] == v[..n][k];
      assert forall j :: 0 <= j < n ==> v[j] == v[..n][j];
      if v[n] > v[k] then n else k
  }

  /** The cache after running `ctx` from an empty cache. */
  function KvOf(m: Model, ctx: seq<Token>): (kv: seq<Entry>)
    ensures |kv| == |ctx|
  {
    if ctx == [] then []
    else
      var n := |ctx| - 1;
      var kv := KvOf(m, ctx[..n]);
      kv + [m.embed(kv, n, ctx[n])]
  }

  /** Causality: the entry at position p depends only on tokens 0..p. */
  lemma {:induction false} KvPrefix(m: Model, ctx: seq<Token>, k: nat)
    requires k <= |ctx|
    ensures KvOf(m, ctx)[..k] == KvOf(m, ctx[..k])
  {
    if k == |ctx| {
      assert ctx[..k] == ctx;
    } else {
      var n := |ctx| - 1;
      KvPrefix(m, ctx[..n], k);
      assert ctx[..n][..k] == ctx[..k];
      assert KvOf(m, ctx)[..k] == KvOf(m, ctx[..n])[..k];
    }
  }

  /** The token the model picks greedily after `ctx`. */
  function Greedy(m: Model, ctx: seq<Token>): Token {
    ArgMax(m.logits(KvOf(m, ctx)))
  }

  /** The token a prefill or a temperature decode draws: greedy unless the temperature is positive. */
  function PickTemp(m: Model, kv: seq<Entry>, temp: real, seed: nat): Token {
    if temp > 0.0 then m.gumbel(kv, temp, seed) else ArgMax(m.logits(kv))
  }

  /** The token the top-K path draws; at temperature 0 it returns the top candidate. */
  function PickTopK(m: Model, kv: seq<Entry>, params: SamplingParams, seed: nat): Token {
    if params.temp <= 0.0 then ArgMax(m.logits(kv)) else m.nucleus(kv, params, seed)
  }

  /** The token a sequence decoding alone draws. */
  function PickOwn(m: Model, kv: seq<Entry>, params: SamplingParams, seed: nat): Token {
    if params.NeedsTopK() then PickTopK(m, kv, params, seed) else PickTemp(m, kv, params.temp, seed)
  }

  const TWO_32: nat := 0x1_0000_0000

  /** Per-token seed: the base seed advanced by a multiple of the generation index, in 32 bits. */
  function StepSeed(base: nat, genIdx: nat): nat {
    (base + genIdx * 0x9E3779B1) % TWO_32
  }

  lemma ModShift(a: nat, c: nat)
    ensures (a + c) % TWO_32 == (a % TWO_32 + c) % TWO_32
  {
    var q := a / TWO_32;
    assert a + c == a % TWO_32 + c + q * TWO_32;
  }

  /** The first token is drawn with the request's own 32-bit seed, and each later one with the seed before it plus a fixed step. */
  lemma SeedSteps(base: nat, i: nat)
    ensures base < 0x1_0000_0000 ==> StepSeed(base, 0) == base
    ensures StepSeed(base, i + 1) == (StepSeed(base, i) + 0x9E3779B1) % 0x1_0000_0000
  {
    ModShift(base + i * 0x9E3779B1, 0x9E3779B1);
    assert base + (i + 1) * 0x9E3779B1 == base + i * 0x9E3779B1 + 0x9E3779B1;
  }

  /** 244002641 undoes a multiplication by the step. */
  lemma StepInverse(d: nat)
    requires (d * 0x9E3779B1) % TWO_32 == 0
    ensures d % TWO_32 == 0
  {
    var q := d * 0x9E3779B1 / TWO_32;
    assert d * 0x9E3779B1 == q * TWO_32;
    assert 0x9E3779B1 * 244002641 == 1 + 150801925 * TWO_32;
    assert d == (q * 244002641 - d * 150801925) * TWO_32;
  }

  /** No two tokens of a request are drawn with the same seed, short of 2^32 tokens. */
  lemma SeedsApart(base: nat, i: nat, j: nat)
    requires i <= j
    ensures StepSeed(base, i) == StepSeed(base, j) <==> (j - i) % 0x1_0000_0000 == 0
  {
    var a, d := base + i * 0x9E3779B1, j - i;
    assert base + j * 0x9E3779B1 == a + d * 0x9E3779B1;
    if a % TWO_32 == (a + d * 0x9E3779B1) % TWO_32 {
      SameRemainder(a, d * 0x9E3779B1);
      StepInverse(d);
    }
    if d % TWO_32 == 0 {
      var q := d / TWO_32;
      assert d * 0x9E3779B1 == (q * 0x9E3779B1) * TWO_32;
      assert a + d * 0x9E3779B1 == a % TWO_32 + (a / TWO_32 + q * 0x9E3779B1) * TWO_32;
    }
  }

  lemma SameRemainder(a: nat, d: nat)
    requires a % TWO_32 == (a + d) % TWO_32
    ensures d % TWO_32 == 0
  {
    var p, q := a / TWO_32, (a + d) / TWO_32;
    assert d == (q - p) * TWO_32;
  }
}
