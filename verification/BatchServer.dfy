/**
 The serving loop around the scheduler: each request has its own channel, on which its tokens are
 sent one by one and then a single end mark.
 */
module BatchServer {
  import opened Wrappers
  import opened KvModel
  import opened Generation
  import opened PagedDecoder
  import opened Schedule
  import opened DecodeStep
  import opened Progress
  import opened Batcher

  type Messages = seq<Option<Token>>

  function Somes(ts: seq<Token>): (r: Messages)
    ensures |r| == |ts| && forall i :: 0 <= i < |ts| ==> r[i] == Some(ts[i])
  {
    seq(|ts|, i requires 0 <= i < |ts| => Some(ts[i]))
  }

  /** Tokens, and at most one end mark, which is last. */
  ghost predicate WellFormed(msgs: Messages) {
    forall i :: 0 <= i < |msgs| - 1 ==> msgs[i].Some?
  }

  /**
   Open channels carry exactly their request's tokens so far; a finished request's channel carries
   all of them and the end mark; every channel is well formed. Folded.
   */
  ghost predicate Synced(chans: set<nat>, sent: map<nat, Messages>, log: seq<Emit>) {
    forall n :: Unfold(n) ==> SyncedBody(chans, sent, log)
  }

  ghost predicate SyncedBody(chans: set<nat>, sent: map<nat, Messages>, log: seq<Emit>) {
    && (forall id :: id in chans ==> id in sent && sent[id] == Somes(TokensOf(log, id)) && !Done(log, id))
    && (forall id :: Done(log, id) ==> id in sent && sent[id] == Somes(TokensOf(log, id)) + [None])
    && (forall id :: id in sent ==> WellFormed(sent[id]))
  }

  /** One produced token goes out on its channel; the end mark follows it if it is the last. */
  function SendOne(sent: map<nat, Messages>, em: Emit): map<nat, Messages>
    requires em.id in sent
  {
    sent[em.id := sent[em.id] + [Some(em.token)] + (if em.done then [None] else [])]
  }

  lemma DoneAppend(log: seq<Emit>, em: Emit, id: nat)
    ensures Done(log + [em], id) <==> Done(log, id) || (em.done && em.id == id)
  {
    var log' := log + [em];
    if i :| 0 <= i < |log| && log[i].id == id && log[i].done {
      assert log'[i] == log[i];
    }
    if em.done && em.id == id {
      assert log'[|log|] == em;
    }
  }

  lemma SendSynced(chans: set<nat>, sent: map<nat, Messages>, log: seq<Emit>, em: Emit)
    requires Synced(chans, sent, log) && em.id in chans
    ensures em.id in sent
    ensures Synced(if em.done then chans - {em.id} else chans, SendOne(sent, em), log + [em])
  {
    assert Unfold(0);
    var log' := log + [em];
    var chans' := if em.done then chans - {em.id} else chans;
    var sent' := SendOne(sent, em);
    TokensAppend(log, em, em.id);
    assert Somes(TokensOf(log, em.id)) + [Some(em.token)] == Somes(TokensOf(log', em.id));
    forall id ensures id in chans' ==> id in sent' && sent'[id] == Somes(TokensOf(log', id)) && !Done(log', id) {
      DoneAppend(log, em, id);
      TokensAppend(log, em, id);
    }
    forall id ensures Done(log', id) ==> id in sent' && sent'[id] == Somes(TokensOf(log', id)) + [None] {
      DoneAppend(log, em, id);
      TokensAppend(log, em, id);
    }
  }

  lemma LiveNotDone(e: Env, s: Sched, k: Kv, log: seq<Emit>, id: nat)
    requires Sane(e, s, k, log) && AllRunning(s, 0) && Live(s, id)
    ensures id in e.reqs && !Done(log, id)
  {
    assert Unfold(0);
    var j: Job;
    if i :| 0 <= i < |s.active| && s.active[i].id == id {
      assert ActiveOk(e, log, k, s.active[i]);
      j := s.active[i].AsJob();
    } else if i :| 0 <= i < |s.prefilling| && s.prefilling[i].id == id {
      assert PrefillOk(e, log, k, s.prefilling[i]);
      PromptJob(e, log, s.prefilling[i]);
      j := s.prefilling[i].AsJob();
    } else {
      var i :| 0 <= i < |s.preempted| && s.preempted[i].id == id;
      assert PreemptOk(e, log, s.preempted[i]);
      j := s.preempted[i].AsJob();
    }
    NoDoneTo(e.reqs, log, id, |log|);
  }

  /** The open channels are those of the live requests. Folded. */
  ghost predicate Matched(chans: set<nat>, s: Sched) {
    forall n :: Unfold(n) ==> forall id :: id in chans <==> Live(s, id)
  }

  /** The channels still open after a step's tokens went out are those of the requests still live. */
  lemma MatchedAfter(e: Env, s: Sched, log: seq<Emit>, s': Sched, k': Kv, log': seq<Emit>, chans: set<nat>, chans': set<nat>, sent: map<nat, Messages>)
    requires Matched(chans, s) && Follows(s, log, s', log')
    requires Sane(e, s', k', log') && AllRunning(s', 0)
    requires chans' <= chans && Synced(chans', sent, log') && forall id :: id in chans && id !in chans' ==> Done(log', id)
    ensures Matched(chans', s')
  {
    assert Unfold(0) && FollowsBody(s, log, s', log');
    forall id ensures id in chans' <==> Live(s', id) {
      if Live(s', id) {
        LiveNotDone(e, s', k', log', id);
      }
    }
  }

  /** A request nobody has submitted has no tokens. */
  lemma UnknownSilent(e: Env, s: Sched, k: Kv, log: seq<Emit>, id: nat)
    requires Sane(e, s, k, log) && id !in e.reqs
    ensures TokensOf(log, id) == [] && !Done(log, id)
  {
    assert Unfold(0);
    forall i | 0 <= i < |log| ensures log[i].id != id {
      assert EntryOk(e.reqs, log, i);
    }
    NoEntry(log, id, |log|);
  }

  lemma UnknownIdle(chans: set<nat>, sent: map<nat, Messages>, log: seq<Emit>, s: Sched, id: nat)
    requires Synced(chans, sent, log) && Matched(chans, s) && id !in sent
    ensures id !in chans && !Live(s, id)
  {
    assert Unfold(0);
  }

  lemma ChannelOpened(chans: set<nat>, sent: map<nat, Messages>, log: seq<Emit>, s: Sched, s': Sched, id: nat)
    requires Synced(chans, sent, log) && Matched(chans, s) && id !in sent && TokensOf(log, id) == [] && !Done(log, id)
    requires s'.active == s.active && s'.preempted == s.preempted && s.prefilling <= s'.prefilling
    requires |s'.prefilling| == |s.prefilling| + 1 && s'.prefilling[|s.prefilling|].id == id
    ensures Synced(chans + {id}, sent[id := []], log) && Matched(chans + {id}, s')
  {
    assert Unfold(0);
    forall x ensures Live(s', x) <==> Live(s, x) || x == id {
      if j :| 0 <= j < |s'.prefilling| && s'.prefilling[j].id == x {
        assert j < |s.prefilling| ==> s.prefilling[j].id == x;
      }
      if j :| 0 <= j < |s.prefilling| && s.prefilling[j].id == x {
        assert s'.prefilling[j].id == x;
      }
    }
  }

  lemma ChannelRefused(chans: set<nat>, sent: map<nat, Messages>, log: seq<Emit>, id: nat)
    requires Synced(chans, sent, log) && id !in sent && !Done(log, id)
    ensures Synced(chans, sent[id := [None]], log)
  {
    assert Unfold(0);
    forall x | Done(log, x) ensures x in sent && sent[x] == Somes(TokensOf(log, x)) + [None] {
    }
  }

  /** A channel dropped without an end mark: its request was cancelled. */
  lemma ChannelDropped(chans: set<nat>, sent: map<nat, Messages>, log: seq<Emit>, s: Sched, s': Sched, id: nat)
    requires Synced(chans, sent, log) && Matched(chans, s) && !Live(s', id)
    requires forall x :: x != id ==> (Live(s', x) <==> Live(s, x))
    ensures Synced(chans - {id}, sent, log) && Matched(chans - {id}, s')
  {
    assert Unfold(0);
  }

  /** Every channel that is open is sent the end mark. */
  ghost predicate Aborted(chans: set<nat>, sent: map<nat, Messages>, sent': map<nat, Messages>) {
    && sent'.Keys == sent.Keys
    && forall id :: id in sent ==> sent'[id] == if id in chans then sent[id] + [None] else sent[id]
  }

  /** From `chans0` and `sent0` on, the tokens of `log` have been sent. Folded. */
  ghost predicate Delivering(chans0: set<nat>, sent0: map<nat, Messages>, chans: set<nat>, sent: map<nat, Messages>, log: seq<Emit>) {
    && Synced(chans, sent, log)
    && forall n :: Unfold(n) ==> DeliveringBody(chans0, sent0, chans, sent, log)
  }

  ghost predicate DeliveringBody(chans0: set<nat>, sent0: map<nat, Messages>, chans: set<nat>, sent: map<nat, Messages>, log: seq<Emit>) {
    && chans <= chans0 <= sent0.Keys == sent.Keys
    && (forall id :: id in chans0 ==> sent0[id] <= sent[id])
    && (forall id :: id in sent0 && id !in chans0 ==> sent[id] == sent0[id])
    && (forall id :: id in chans0 && id !in chans ==> Done(log, id))
  }

  lemma DeliverStart(chans: set<nat>, sent: map<nat, Messages>, log: seq<Emit>)
    requires Synced(chans, sent, log)
    ensures Delivering(chans, sent, chans, sent, log)
  {
    assert Unfold(0);
  }

  /** The next token's channel is open: its request was live, and nothing follows a done token. */
  lemma StillOpen(e: Env, s': Sched, k': Kv, s: Sched, log: seq<Emit>, res: seq<Emit>, i: nat,
                  chans0: set<nat>, sent0: map<nat, Messages>, chans: set<nat>, sent: map<nat, Messages>)
    requires Sane(e, s', k', log + res) && Matched(chans0, s) && Follows(s, log, s', log + res) && i < |res|
    requires Delivering(chans0, sent0, chans, sent, log + res[..i])
    ensures res[i].id in chans
  {
    var id := res[i].id;
    assert Unfold(0) && FollowsBody(s, log, s', log + res);
    assert (log + res)[|log| + i] == res[i];
    NotDoneYet(e, s', k', log + res, |log| + i);
    assert log + res[..i] == (log + res)[..|log| + i];
  }

  /** No token before the m-th ends its request. */
  lemma NotDoneYet(e: Env, s: Sched, k: Kv, log: seq<Emit>, m: nat)
    requires Sane(e, s, k, log) && m < |log|
    ensures !Done(log[..m], log[m].id)
  {
    assert Unfold(0);
  }

  lemma DeliverNext(chans0: set<nat>, sent0: map<nat, Messages>, chans: set<nat>, sent: map<nat, Messages>, log: seq<Emit>, em: Emit)
    requires Delivering(chans0, sent0, chans, sent, log) && em.id in chans
    ensures em.id in sent
    ensures Delivering(chans0, sent0, if em.done then chans - {em.id} else chans, SendOne(sent, em), log + [em])
  {
    assert Unfold(0);
    SendSynced(chans, sent, log, em);
    forall id | id in chans0 && (id !in chans || (em.done && id == em.id)) ensures Done(log + [em], id) {
      DoneAppend(log, em, id);
    }
  }

  lemma DeliverEnd(e: Env, s: Sched, log: seq<Emit>, s': Sched, k': Kv, log': seq<Emit>,
                   chans0: set<nat>, sent0: map<nat, Messages>, chans: set<nat>, sent: map<nat, Messages>)
    requires Matched(chans0, s) && Follows(s, log, s', log') && Sane(e, s', k', log') && AllRunning(s', 0)
    requires Delivering(chans0, sent0, chans, sent, log')
    ensures Matched(chans, s')
  {
    assert Unfold(0);
    MatchedAfter(e, s, log, s', k', log', chans0, chans, sent);
  }

  /**
   A turn's effect on the channels: those that were not open are untouched, open ones only grow, and
   one is dropped only if its client has gone or its request is done.
   */
  ghost predicate Turned(chans0: set<nat>, sent0: map<nat, Messages>, chans: set<nat>, sent: map<nat, Messages>, log: seq<Emit>, closed: set<nat>) {
    && chans <= chans0 <= sent0.Keys == sent.Keys && chans !! closed
    && (forall id :: id in chans0 ==> sent0[id] <= sent[id])
    && (forall id :: id in sent0 && id !in chans0 ==> sent[id] == sent0[id])
    && (forall id :: id in chans0 && id !in chans ==> id in closed || Done(log, id))
  }

  lemma TurnEnds(chans0: set<nat>, sent0: map<nat, Messages>, open: set<nat>, chans: set<nat>, sent: map<nat, Messages>, log: seq<Emit>, closed: set<nat>)
    requires Delivering(chans0, sent0, open, sent, log) && chans == open - closed
    ensures Turned(chans0, sent0, chans, sent, log, closed)
  {
    assert Unfold(0);
  }

  lemma ChannelsShaped(chans: set<nat>, sent: map<nat, Messages>, log: seq<Emit>)
    requires Synced(chans, sent, log)
    ensures forall id :: id in sent ==> WellFormed(sent[id])
    ensures forall id :: id in chans ==> id in sent && forall i :: 0 <= i < |sent[id]| ==> sent[id][i].Some?
  {
    assert Unfold(0);
  }

  lemma EmptyLogSynced(sent: map<nat, Messages>)
    requires forall id :: id in sent ==> WellFormed(sent[id])
    ensures Synced({}, sent, [])
  {
  }

  /** A scheduler whose pool reserves a full-length sequence per slot. */
  method Fresh(m: Model, mMax: nat, maxSeq: nat, swapMode: bool, firstFit: bool, ghost noTopK: bool) returns (c: ContinuousBatcher)
    requires 0 < mMax
    ensures fresh(c) && fresh(c.dec) && c.Valid() && c.Reserved()
    ensures c.dec.m == m && c.dec.mMax == mMax && c.dec.maxSeq == maxSeq && c.dec.nBlocks == mMax * Blocks(maxSeq)
    ensures c.noTopK == noTopK && c.swapMode == swapMode && c.reqs == map[] && c.log == [] && Matched({}, c.S()) && Synced({}, map[], [])
  {
    AtLeastOne(mMax, Blocks(maxSeq));
    c := new ContinuousBatcher.WithPool(m, mMax, maxSeq, mMax * Blocks(maxSeq), swapMode, firstFit, noTopK);
  }

  predicate PlainGreedy(p: SamplingParams) {
    p.temp == 0.0 && p.topK == 0 && (p.topP <= 0.0 || p.topP >= 1.0)
  }

  /** Steps draft: it is enabled, and every decoding sequence is greedy, without top-k or top-p. */
  ghost predicate Drafting(pld: bool, active: seq<CbSeq>) {
    pld && forall i :: 0 <= i < |active| ==> PlainGreedy(active[i].params)
  }

  lemma GateIs(cb: ContinuousBatcher)
    ensures Drafting(true, cb.active) <==> cb.AllGreedy()
  {
    assert forall i :: 0 <= i < |cb.active| ==> cb.active[i] in cb.active;
  }

  lemma AtLeastOne(a: nat, b: nat)
    requires 0 < a
    ensures b <= a * b
  {
  }

  class GpuBatchServer {
    const mMax: nat
    const maxSeq: nat
    const pld: bool
    const firstFit: bool
    const swapMode: bool
    ghost const noTopK: bool

    var cb: ContinuousBatcher
    var chans: set<nat>
    var sent: map<nat, Messages>
    var nextId: nat

    ghost predicate Valid()
      reads this, cb, cb.dec
    {
      && cb.Valid() && cb.dec.mMax == mMax && cb.dec.maxSeq == maxSeq && mMax * Blocks(maxSeq) <= cb.dec.nBlocks
      && cb.noTopK == noTopK && cb.swapMode == swapMode && 0 < mMax
      && (forall id :: id in cb.reqs ==> id < nextId)
      && (forall id :: id in sent ==> id < nextId)
      && Synced(chans, sent, cb.log) && Matched(chans, cb.S())
    }

    constructor Spawn(m: Model, mMax: nat, maxSeq: nat, pld: bool, firstFit: bool, swapMode: bool, ghost noTopK: bool)
      requires 0 < mMax
      ensures Valid() && fresh(cb) && fresh(cb.dec) && cb.dec.m == m && sent == map[] && nextId == 0
    {
      this.mMax, this.maxSeq, this.pld, this.firstFit, this.swapMode := mMax, maxSeq, pld, firstFit, swapMode;
      this.noTopK := noTopK;
      var c := Fresh(m, mMax, maxSeq, swapMode, firstFit, noTopK);
      cb := c;
      chans, sent, nextId := {}, map[], 0;
    }

    /** What a request must respect; the scheduler itself refuses prompts that do not fit. */
    ghost predicate Acceptable(r: Request) {
      noTopK ==> !r.params.NeedsTopK()
    }

    /** Takes a request: queued with an open channel, or refused with an immediate end mark. */
    method AdmitReq(r: Request)
      requires Valid() && Acceptable(r)
      modifies this`chans, this`sent, this`nextId, cb, cb.dec
      ensures Valid() && nextId == old(nextId) + 1 && old(nextId) !in old(sent)
      ensures sent == old(sent)[old(nextId) := if old(nextId) in chans then [] else [None]]
      ensures chans == old(chans) || chans == old(chans) + {old(nextId)}
      ensures old(nextId) in chans ==> old(nextId) in cb.reqs && cb.reqs[old(nextId)] == r
      ensures old(nextId) in chans <==>
          0 < |r.prompt| <= maxSeq && old(cb.HasFree()) && old(cb.dec.CanFit(|r.prompt|))
    {
      var id := nextId;
      ghost var s, log := cb.S(), cb.log;
      nextId := nextId + 1;
      UnknownSilent(cb.E(), s, cb.K(), log, id);
      UnknownIdle(chans, sent, log, s, id);
      var ok := cb.EnqueueParams(id, r.prompt, r.maxTokens, r.eos, r.params, r.seed);
      if ok {
        ChannelOpened(chans, sent, log, s, cb.S(), id);
        chans := chans + {id};
        sent := sent[id := []];
      } else {
        ChannelRefused(chans, sent, log, id);
        sent := sent[id := [None]];
      }
    }

    /** One of the decoder's assertions on the batch of the sequences `kept` fails. */
    ghost predicate Fails(kept: seq<CbSeq>, drafting: bool)
      reads this, cb, cb.dec
    {
      if drafting then cb.Overflows(kept, 3, 7) else !InWindow(kept, maxSeq)
    }

    /**
     One busy turn of the loop: a scheduler step, its tokens sent, then the requests of closed
     channels cancelled. False when the step fails, which ends the serving thread: when the batch of
     the decoding sequences `kept` breaks an assertion of the decoder, or when the next sequence to
     resume has outgrown the context window. With requests whose prompt and budget fit the window
     only drafts can fail a turn.
     */
    method Turn(closed: set<nat>) returns (alive: bool, ghost kept: seq<CbSeq>)
      requires Valid()
      modifies this`chans, this`sent, cb, cb.dec
      ensures cb.Valid() && (alive || cb.log == old(cb.log) || old(cb.WithinWindow(1)) ==> Valid())
      ensures kept <= old(cb.active) && (old(InWindow(cb.active, maxSeq)) ==> kept == old(cb.active))
      ensures Fails(kept, Drafting(pld, old(cb.active))) ==> !alive
      ensures !alive ==> Fails(kept, Drafting(pld, old(cb.active))) || cb.Blocked()
      ensures old(cb.WithinWindow(1)) ==> (!alive <==> Drafting(pld, old(cb.active)) && Fails(old(cb.active), true))
      ensures !alive ==> chans == old(chans) && sent == old(sent)
      ensures alive ==> Turned(old(chans), old(sent), chans, sent, cb.log, closed)
    {
      hide Sane, Follows, Live, Turned;
      ghost var s, log := cb.S(), cb.log;
      var r;
      r, kept := RunStep();
      if r.None? {
        if cb.log == log {
          MatchedAfter(cb.E(), s, log, cb.S(), cb.K(), cb.log, chans, chans, sent);
        }
        return false, kept;
      }
      Deliver(r.value, s, log);
      ghost var open := chans;
      Reclaim(closed);
      TurnEnds(old(chans), old(sent), open, chans, sent, cb.log, closed);
      return true, kept;
    }

    /** One scheduler step, speculative when enabled and every decoding sequence is greedy. */
    method RunStep() returns (r: Option<seq<Emit>>, ghost kept: seq<CbSeq>)
      requires Valid()
      modifies cb, cb.dec
      ensures cb.Valid() && cb.reqs == old(cb.reqs)
      ensures Follows(old(cb.S()), old(cb.log), cb.S(), cb.log) && (r.Some? ==> cb.log == old(cb.log) + r.value)
      ensures kept <= old(cb.active) && (old(InWindow(cb.active, maxSeq)) ==> kept == old(cb.active))
      ensures r.None? <==> Fails(kept, Drafting(pld, old(cb.active))) || cb.Blocked()
      ensures Fails(kept, Drafting(pld, old(cb.active))) ==> cb.log == old(cb.log)
      ensures old(cb.WithinWindow(1)) ==> !cb.Blocked() && kept == old(cb.active) && InWindow(kept, maxSeq)
    {
      cb.NobodyOutgrows();
      GateIs(cb);
      if pld && cb.AllGreedy() {
        ghost var decoded;
        r, kept, decoded := cb.StepPld(3, 7);
      } else {
        if InWindow(cb.active, maxSeq) {
          cb.AlwaysComfortable();
        }
        ghost var short;
        r, kept, short := cb.Step();
      }
      cb.NobodyOutgrows();
    }

    /** Sends a step's tokens and end marks. */
    method Deliver(res: seq<Emit>, ghost s: Sched, ghost log: seq<Emit>)
      requires cb.Valid() && Synced(chans, sent, log) && Matched(chans, s)
      requires cb.log == log + res && Follows(s, log, cb.S(), cb.log)
      modifies this`chans, this`sent
      ensures Delivering(old(chans), old(sent), chans, sent, cb.log) && Matched(chans, cb.S())
    {
      ghost var chans0, sent0 := chans, sent;
      DeliverStart(chans, sent, log);
      var i := 0;
      PrefixEnds(log, res);
      while i < |res|
        invariant i <= |res| && Delivering(chans0, sent0, chans, sent, log + res[..i])
      {
        var em := res[i];
        StillOpen(cb.E(), cb.S(), cb.K(), s, log, res, i, chans0, sent0, chans, sent);
        DeliverNext(chans0, sent0, chans, sent, log + res[..i], em);
        PrefixNext(log, res, i);
        SendOneOf(em);
        i := i + 1;
      }
      DeliverEnd(cb.E(), s, log, cb.S(), cb.K(), cb.log, chans0, sent0, chans, sent);
    }

    /** The token, and after the last one the end mark. */
    method SendOneOf(em: Emit)
      requires em.id in chans && em.id in sent
      modifies this`chans, this`sent
      ensures sent == SendOne(old(sent), em) && chans == if em.done then old(chans) - {em.id} else old(chans)
    {
      ghost var was := sent[em.id];
      if em.id in chans {
        sent := sent[em.id := sent[em.id] + [Some(em.token)]];
      }
      if em.done && em.id in chans {
        chans := chans - {em.id};
        sent := sent[em.id := sent[em.id] + [None]];
      }
      assert was + [Some(em.token)] + [] == was + [Some(em.token)];
    }

    /** Cancels the requests whose clients have gone. */
    method Reclaim(closed: set<nat>)
      requires cb.Valid() && Synced(chans, sent, cb.log) && Matched(chans, cb.S())
      modifies this`chans, cb, cb.dec
      ensures cb.Valid() && cb.log == old(cb.log) && cb.reqs == old(cb.reqs)
      ensures Synced(chans, sent, cb.log) && Matched(chans, cb.S())
      ensures chans == old(chans) - closed
    {
      var todo := chans * closed;
      while todo != {}
        invariant cb.Valid() && cb.log == old(cb.log) && cb.reqs == old(cb.reqs)
        invariant Synced(chans, sent, cb.log) && Matched(chans, cb.S())
        invariant todo <= chans && chans - todo == old(chans) - closed
      {
        var id :| id in todo;
        ghost var s := cb.S();
        var found := cb.Cancel(id);
        ChannelDropped(chans, sent, cb.log, s, cb.S(), id);
        chans, todo := chans - {id}, todo - {id};
      }
    }

    /** Model hot-swap: every open channel is ended, and on success a fresh scheduler takes over. */
    method Swap(load: Option<Model>) returns (alive: bool)
      requires Valid()
      modifies this`chans, this`sent, this`cb
      ensures alive <==> load.Some?
      ensures alive ==> Valid() && fresh(cb) && fresh(cb.dec) && cb.dec.m == load.value && cb.log == []
      ensures chans == {} && Aborted(old(chans), old(sent), sent)
    {
      ghost var log := cb.log;
      AbortAll(log);
      if load.None? {
        return false;
      }
      var c := Fresh(load.value, mMax, maxSeq, swapMode, firstFit, noTopK);
      cb := c;
      EmptyLogSynced(sent);
      return true;
    }

    /** Ends every open channel. */
    method AbortAll(ghost log: seq<Emit>)
      requires Synced(chans, sent, log)
      modifies this`chans, this`sent
      ensures chans == {} && Aborted(old(chans), old(sent), sent)
      ensures forall id :: id in sent ==> WellFormed(sent[id])
    {
      ghost var open := chans;
      ChannelsShaped(chans, sent, log);
      while chans != {}
        invariant chans <= open
        invariant sent.Keys == old(sent).Keys
        invariant forall id :: id in sent ==> WellFormed(sent[id])
        invariant forall id :: id in chans ==> forall i :: 0 <= i < |sent[id]| ==> sent[id][i].Some?
        invariant Aborted(open - chans, old(sent), sent)
      {
        var id :| id in chans;
        chans := chans - {id};
        sent := sent[id := sent[id] + [None]];
      }
    }

    /**
     What a client receives. Its channel carries tokens and at most one end mark, last; when its
     request has finished, exactly the request's solo generation and the end mark; and while the
     channel is open, the solo generation so far.
     */
    lemma ClientSees(id: nat)
      requires Valid() && id in cb.reqs && Exact(cb.reqs[id], Mode(noTopK, swapMode))
      ensures id in chans ==> id in sent && sent[id] <= Somes(Solo(cb.dec.m, cb.reqs[id]))
      ensures Done(cb.log, id) ==> id in sent && sent[id] == Somes(Solo(cb.dec.m, cb.reqs[id])) + [None]
    {
      assert Unfold(0);
      cb.StreamsExact(id);
    }
  }
}
