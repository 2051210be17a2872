/** Inputs on which the scheduler fails although every call it was given is one it accepts. */
module SchedulerLimits {
  import opened Wrappers
  import opened KvModel
  import opened Generation
  import opened PagedDecoder
  import opened Schedule
  import opened DecodeRows
  import opened DecodeStep
  import opened PoolRoom
  import opened Progress
  import opened PromptLookup
  import opened DraftStep
  import opened Batcher

  /** A model that always continues with token 0. */
  function ZeroModel(): Model {
    Model((_, _, _) => 0, _ => [], (_, _, _) => 0, (_, _, _) => 0)
  }

  const GREEDY: SamplingParams := SamplingParams(0.0, 0, 0.0)

  function Zeros(n: nat): (s: seq<Token>)
    ensures |s| == n && forall i :: 0 <= i < n ==> s[i] == 0
  {
    seq(n, _ => 0)
  }

  /** A greedy request for up to `maxTokens` zeros, with 1 as its stop token. */
  function ZeroRequest(n: nat, maxTokens: nat): Request {
    Request(Zeros(n), maxTokens, 1, GREEDY, 0)
  }

  lemma ZeroNext(r: Request, gen: seq<Token>)
    requires r.params == GREEDY
    ensures NextToken(ZeroModel(), r, gen) == 0
  {
  }

  /** Its generation runs to the budget. */
  lemma ZeroSolo(n: nat, maxTokens: nat)
    requires maxTokens >= 1
    ensures |Solo(ZeroModel(), ZeroRequest(n, maxTokens))| >= maxTokens
  {
    var r := ZeroRequest(n, maxTokens);
    SoloStops(ZeroModel(), r, []);
    var solo := Solo(ZeroModel(), r);
    SoloTokens(ZeroModel(), r, [], |solo| - 1);
  }

  /** A lone sequence that repeats itself gets a draft, and the draft is one row too many. */
  lemma RepeatDrafts(x: CbSeq)
    requires x.tokens == [0, 0, 0, 0] && x.promptLen == 3 && x.maxTokens == 8
    ensures DraftOf(x, 3, 7) == [0]
    ensures RowCount(DraftsOf([x], 3, 7), 1) == 2
  {
    assert MatchAt(x.tokens, x.tokens[1..], 0);
    assert LastMatch(x.tokens, x.tokens[1..], 1) == Some(0);
    assert Draft(x.tokens, x.tokens, 3, 7) == Some(x.tokens[3..4]);
    assert RowCount(DraftsOf([x], 3, 7), 1) == RowCount(DraftsOf([x], 3, 7), 0) + 1 + |DraftsOf([x], 3, 7)[0]|;
  }

  /**
   The speculative step is not always equal to plain steps: on a full batch with a draft it fails.
   One slot, one greedy request whose prompt repeats a token.
   */
  method PldRowOverflow() returns (r: Option<seq<Emit>>)
    ensures r.None?
  {
    hide Sane, Live, KvOf, Tracked, Follows, PickTemp, Solo;
    var cb := new ContinuousBatcher.WithPool(ZeroModel(), 1, 64, 4, false, false, true);
    IdleRoom(cb);
    var first, failed := cb.AdmitParams(0, [0, 0, 0], 8, 1, GREEDY, 0);
    cb.StreamsExact(0);
    FirstToken(cb.log, first.value.0, cb.reqs[0]);
    RepeatDrafts(cb.active[0]);
    assert cb.active == [cb.active[0]];
    ghost var kept, decoded;
    r, kept, decoded := cb.StepPld(3, 7);
  }

  /** With nothing admitted every prompt inside the window fits the pool. */
  lemma IdleRoom(cb: ContinuousBatcher)
    requires cb.Valid() && cb.active == [] && cb.prefilling == []
    ensures forall n :: 0 <= n <= cb.dec.maxSeq ==> cb.dec.CanFit(n)
  {
    cb.dec.Supply();
    IdlePoolFits(cb.E(), cb.S(), cb.K(), cb.log, cb.dec.nBlocks, cb.dec.bs.FreeBlocks());
  }

  lemma FirstToken(log: seq<Emit>, tok: Token, r: Request)
    requires |log| == 1 && log[0].id == 0 && log[0].token == tok && TokensOf(log, 0) <= Solo(ZeroModel(), r) && r.params == GREEDY
    ensures tok == 0
  {
    assert TokensOf(log, 0) == TokensTo(log, 0, 0) + [tok];
    SoloTokens(ZeroModel(), r, [], 0);
  }

  /**
   A request that the scheduler accepts may outgrow the context window: a prompt that fills it and a
   budget of two tokens. The run then fails.
   */
  method WindowOverflow() returns (ok: bool, r: Option<seq<Emit>>)
    ensures ok && r.None?
  {
    var cb := new ContinuousBatcher.WithPool(ZeroModel(), 1, 16, 1, false, false, true);
    IdleRoom(cb);
    ok := cb.EnqueueParams(0, Zeros(16), 2, 1, GREEDY, 0);
    ZeroSolo(16, 2);
    OnlyQueued(cb.S());
    r := cb.Drain();
  }

  lemma OnlyQueued(s: Sched)
    requires s.active == [] && s.preempted == [] && |s.prefilling| == 1
    ensures forall id :: Live(s, id) <==> id == s.prefilling[0].id
  {
  }

  // ---------------------------------------------------------------- a recompute that shows

  /** A model whose temperature sampler draws 0 and whose top-k sampler draws 1. */
  function SplitModel(): Model {
    Model((_, _, _) => 0, _ => [], (_, _, _) => 0, (_, _, _) => 1)
  }

  const TOP_FIVE: SamplingParams := SamplingParams(1.0, 5, 0.0)

  function TopKRequest(): Request {
    Request([0], 8, 99, TOP_FIVE, 0)
  }

  /** Alone, its second token is drawn by top-k. */
  lemma TopKSolo()
    ensures var solo := Solo(SplitModel(), TopKRequest()); |solo| >= 2 && solo[1] == 1
  {
    var m, r := SplitModel(), TopKRequest();
    assert NextToken(m, r, []) == 0;
    assert SoloFrom(m, r, []) == SoloFrom(m, r, [] + [0]);
    assert [] + [0] == [0] && NextToken(m, r, [0]) == 1;
    SoloExtends(m, r, [0] + [1]);
    assert SoloFrom(m, r, [0]) == SoloFrom(m, r, [0] + [1]);
  }

  lemma SecondToken(log: seq<Emit>)
    requires |log| >= 2 && log[0].id == 0 && log[1].id == 0 && log[1].token == 0
    ensures !(TokensOf(log, 0) <= Solo(SplitModel(), TopKRequest()))
  {
    TopKSolo();
    assert TokensTo(log, 0, 0) == [];
    assert |TokensTo(log, 0, 1)| == 1;
    assert |TokensTo(log, 0, 2)| == 2 && TokensTo(log, 0, 2)[1] == 0;
    TokensGrow(log, 0, 2, |log|);
  }

  lemma {:induction false} TokensGrow(log: seq<Emit>, id: nat, n: nat, n': nat)
    requires n <= n' <= |log|
    ensures TokensTo(log, id, n) <= TokensTo(log, id, n')
  {
    if n < n' {
      TokensGrow(log, id, n, n' - 1);
    }
  }

  /** The request has its first token and has been evicted. */
  method EvictedTopK() returns (cb: ContinuousBatcher)
    ensures fresh(cb) && fresh(cb.dec) && cb.Valid() && cb.dec.m == SplitModel() && cb.dec.mMax == 1 && cb.dec.maxSeq == 16
    ensures cb.reqs == map[0 := TopKRequest()] && cb.log == [Emit(0, 0, false)]
    ensures cb.active == [] && cb.prefilling == []
    ensures cb.preempted == [PreemptedSeq(0, [0, 0], 1, 8, 99, TOP_FIVE, 0, None)]
  {
    hide Sane, Live, KvOf, StepSeed, Tracked, Follows;
    cb := new ContinuousBatcher.WithPool(SplitModel(), 1, 16, 1, false, false, false);
    IdleRoom(cb);
    var first, failed := cb.AdmitParams(0, [0], 8, 99, TOP_FIVE, 0);
    assert first.value.0 == 0;
    assert [0] + [0] == [0, 0];
    var evicted := cb.PreemptLastActive();
    assert cb.preempted == [cb.preempted[0]];
  }

  /**
   Recompute preemption can change what a client receives. A top-k request gets its first token, is
   evicted and resumed; its second token is then drawn by temperature, not by top-k.
   */
  method RecomputeDiverges() returns (cb: ContinuousBatcher)
    ensures cb.Valid() && 0 in cb.reqs && !(TokensOf(cb.log, 0) <= Solo(cb.dec.m, cb.reqs[0]))
  {
    hide Sane, Live, KvOf, StepSeed, Tracked, Solo, Resumed, TokensOf;
    cb := EvictedTopK();
    IdleRoom(cb);
    ResumedByTemp(cb.preempted[0]);
    var more := cb.Reschedule();
    cb.NobodyOutgrows();
    SecondToken(cb.log);
  }

  lemma ResumedByTemp(p: PreemptedSeq)
    requires p.kv.None? && p.params == TOP_FIVE && p.promptLen <= |p.tokens|
    ensures Resumed(SplitModel(), p) == 0
  {
  }

  // ---------------------------------------------------------------- eviction that cannot help

  /** One sequence decoding at the end of its block, and a long prompt between two of its chunks. */
  ghost function StuckSched(): Sched {
    Sched([], [CbSeq(0, 0, Zeros(17), 16, 8, 1, GREEDY, 0)], [PrefillingSeq(1, 1, Zeros(144), 144, 128, 0, 8, 1, GREEDY, 0)], [])
  }

  ghost function StuckEnv(): Env {
    Env(ZeroModel(), 144, 2, Mode(true, false), map[0 := ZeroRequest(16, 8), 1 := ZeroRequest(144, 8)])
  }

  ghost function StuckKv(): Kv {
    Kv([Zeros(16), Zeros(128)], [0, 0], [1, 8])
  }

  const STUCK_LOG: seq<Emit> := [Emit(0, 0, false)]

  lemma StuckLog()
    ensures TokensOf(STUCK_LOG, 0) == [0] && TokensOf(STUCK_LOG, 1) == []
    ensures LogOk(ZeroModel(), Mode(true, false), StuckEnv().reqs, STUCK_LOG) && LogFits(StuckEnv(), STUCK_LOG)
  {
    assert TokensTo(STUCK_LOG, 0, 0) == [] && TokensTo(STUCK_LOG, 1, 0) == [];
    assert TokensTo(STUCK_LOG, 0, 1) == [0];
    var r := ZeroRequest(16, 8);
    ZeroNext(r, []);
    assert [] + [NextToken(ZeroModel(), r, [])] == [0];
    StepOnTrack(ZeroModel(), r, []);
    assert EntryOk(StuckEnv().reqs, STUCK_LOG, 0);
  }

  lemma StuckOwners()
    ensures OwnersOk(StuckEnv(), StuckSched(), StuckKv(), STUCK_LOG)
  {
    StuckLog();
    var e, s, k := StuckEnv(), StuckSched(), StuckKv();
    var x, p := s.active[0], s.prefilling[0];
    assert x.tokens[..16] == Zeros(16) && x.tokens[16..] == [0];
    assert p.prompt[..144] == p.prompt && p.prompt[144..] == [] && p.prompt[..128] == Zeros(128);
    assert ActiveOk(e, STUCK_LOG, k, x);
    assert PrefillOk(e, STUCK_LOG, k, p);
  }

  lemma StuckApart()
    ensures SlotsApart(StuckSched()) && IdsApart(StuckSched())
  {
    hide Zeros;
  }

  lemma StuckSane()
    ensures Sane(StuckEnv(), StuckSched(), StuckKv(), STUCK_LOG)
  {
    hide OwnersOk, SlotsApart, IdsApart, LogOk, LogFits, Zeros, StuckSched, ZeroModel, STUCK_LOG;
    StuckLog();
    StuckOwners();
    StuckApart();
    forall id | id in StuckEnv().reqs ensures !StuckEnv().reqs[id].params.NeedsTopK() {
    }
    assert SaneBody(StuckEnv(), StuckSched(), StuckKv(), STUCK_LOG);
  }

  lemma StuckRuns()
    ensures AllRunning(StuckSched(), 0)
  {
    var x := StuckSched().active[0];
    assert x.tokens[16..] == [0];
  }

  /**
   A lone decoding sequence does not always fit, whatever is evicted: this state meets the scheduler's
   invariant in a pool of nine blocks, which holds a full-length sequence, and shares no block; the
   mid-prefill sequence holds eight, the decoding one holds the other and needs a second.
   */
  lemma LoneMayNotFit()
    ensures var e, s, k := StuckEnv(), StuckSched(), StuckKv();
            && Sane(e, s, k, STUCK_LOG) && AllRunning(s, 0) && |s.free| + |s.active| + |s.prefilling| == e.mMax
            && Sum(k.held) == 9 && Blocks(e.maxSeq) <= 9
            && |s.active| == 1 && |s.active[0].tokens| <= e.maxSeq && s.active[0].slot < |k.held|
            && ShortOf(k.held[s.active[0].slot], |s.active[0].tokens|) > 9 - Sum(k.held)
  {
    StuckSane();
    StuckRuns();
    var held := StuckKv().held;
    assert Sum(held) == SumTo(held, 1) + 8 && SumTo(held, 1) == SumTo(held, 0) + 1;
  }
}
