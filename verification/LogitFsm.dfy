/**
 Grammar-constrained decoding over an arbitrary finite byte automaton: which states can still reach
 a match, which tokens keep that possible, and what masking the logits with them guarantees.
 */
module LogitFsm {
  import opened Wrappers

  type Byte = b: nat | b < 256
  type State = nat

  /**
   A compiled grammar. `next` is total; entering a dead or quit state ends a walk. `accept` says
   whether the text read so far is a complete match.
   */
  datatype Dfa = Dfa(states: set<State>, start: State, next: (State, Byte) -> State, dead: State -> bool,
                     quit: State -> bool, accept: State -> bool)
  {
    ghost predicate Closed() {
      start in states && forall s, b: Byte :: s in states ==> next(s, b) in states
    }

    predicate Stuck(s: State) {
      dead(s) || quit(s)
    }
  }

  /** Where a walk over the bytes ends; None once it enters a dead or quit state. */
  function Run(dfa: Dfa, s: State, w: seq<Byte>): Option<State>
    decreases |w|
  {
    if w == [] then Some(s)
    else
      var t := dfa.next(s, w[0]);
      if dfa.Stuck(t) then None else Run(dfa, t, w[1..])
  }

  ghost predicate Accepts(dfa: Dfa, s: State, w: seq<Byte>) {
    Run(dfa, s, w).Some? && dfa.accept(Run(dfa, s, w).value)
  }

  /** Some continuation reaches a match. */
  ghost predicate Live(dfa: Dfa, s: State) {
    exists w :: Accepts(dfa, s, w)
  }

  lemma {:induction false} RunConcat(dfa: Dfa, s: State, v: seq<Byte>, w: seq<Byte>)
    ensures Run(dfa, s, v + w) == match Run(dfa, s, v) case None => None case Some(t) => Run(dfa, t, w)
    decreases |v|
  {
    if v == [] {
      assert v + w == w;
    } else {
      assert (v + w)[1..] == v[1..] + w;
      var t := dfa.next(s, v[0]);
      if !dfa.Stuck(t) {
        RunConcat(dfa, t, v[1..], w);
      }
    }
  }

  lemma {:induction false} RunClosed(dfa: Dfa, s: State, w: seq<Byte>)
    requires dfa.Closed() && s in dfa.states
    ensures Run(dfa, s, w).Some? ==> Run(dfa, s, w).value in dfa.states
    decreases |w|
  {
    if w != [] && !dfa.Stuck(dfa.next(s, w[0])) {
      RunClosed(dfa, dfa.next(s, w[0]), w[1..]);
    }
  }

  /** u steps to v on some byte without getting stuck. */
  ghost predicate Steps(dfa: Dfa, u: State, v: State) {
    !dfa.Stuck(v) && exists b: Byte :: dfa.next(u, b) == v
  }

  lemma LiveStep(dfa: Dfa, u: State, v: State)
    requires Steps(dfa, u, v) && Live(dfa, v)
    ensures Live(dfa, u)
  {
    var b: Byte :| dfa.next(u, b) == v;
    var w :| Accepts(dfa, v, w);
    assert ([b] + w)[1..] == w;
    assert Accepts(dfa, u, [b] + w);
  }

  // ---------------------------------------------------------------- the liveness analysis

  /** `outs` are the states u steps to. */
  ghost predicate Successors(dfa: Dfa, u: State, outs: seq<State>) {
    forall v :: v in outs <==> Steps(dfa, u, v)
  }

  /** The reachable subgraph found so far: every state seen is waiting or has its successors listed. */
  ghost predicate Explored(dfa: Dfa, stack: seq<State>, seen: set<State>, succ: map<State, seq<State>>) {
    && seen <= dfa.states
    && (forall u :: u in seen <==> u in succ || u in stack)
    && (forall u :: u in succ ==> u !in stack)
    && (forall i, j :: 0 <= i < j < |stack| ==> stack[i] != stack[j])
    && (forall u :: u in succ ==> Successors(dfa, u, succ[u]) && forall v :: v in succ[u] ==> v in seen)
  }

  /** Verdicts for every state seen: right where positive, and positive on matches. */
  ghost predicate Sound(dfa: Dfa, seen: set<State>, live: map<State, bool>) {
    && live.Keys == seen
    && (forall u :: u in live && live[u] ==> Live(dfa, u))
    && (forall u :: u in live && dfa.accept(u) ==> live[u])
  }

  /** No verdict can be improved through u's successors. */
  ghost predicate Settled(u: State, outs: seq<State>, live: map<State, bool>) {
    u in live && forall v :: v in outs ==> v in live && (live[v] ==> live[u])
  }

  /** Once nothing changes, every live state has been found: by the length of its shortest witness. */
  lemma {:induction false} FixpointExact(dfa: Dfa, succ: map<State, seq<State>>, live: map<State, bool>, u: State, w: seq<Byte>)
    requires Sound(dfa, succ.Keys, live) && u in succ && Accepts(dfa, u, w)
    requires forall x :: x in succ ==> Successors(dfa, x, succ[x]) && Settled(x, succ[x], live)
    ensures live[u]
    decreases |w|
  {
    if w != [] {
      var v := dfa.next(u, w[0]);
      assert Steps(dfa, u, v);
      assert v in succ[u];
      FixpointExact(dfa, succ, live, v, w[1..]);
    }
  }

  ghost function NotLive(live: map<State, bool>): set<State> {
    set u | u in live && !live[u]
  }

  lemma NotLiveShrinks(live: map<State, bool>, u: State)
    requires u in live && !live[u]
    ensures |NotLive(live[u := true])| < |NotLive(live)|
  {
    assert NotLive(live[u := true]) == NotLive(live) - {u};
  }

  /** One pass over all states; `changed` is false exactly when nothing was left to improve. */
  method Pass(dfa: Dfa, succ: map<State, seq<State>>, live0: map<State, bool>) returns (live: map<State, bool>, changed: bool)
    requires Sound(dfa, succ.Keys, live0)
    requires forall x :: x in succ ==> Successors(dfa, x, succ[x]) && forall v :: v in succ[x] ==> v in succ
    ensures Sound(dfa, succ.Keys, live)
    ensures changed ==> |NotLive(live)| < |NotLive(live0)|
    ensures !changed ==> live == live0 && forall x :: x in succ ==> Settled(x, succ[x], live)
  {
    live, changed := live0, false;
    var todo := succ.Keys;
    while todo != {}
      invariant todo <= succ.Keys && Sound(dfa, succ.Keys, live)
      invariant if changed then |NotLive(live)| < |NotLive(live0)| else live == live0
      invariant !changed ==> forall x :: x in succ && x !in todo ==> Settled(x, succ[x], live)
    {
      var u :| u in todo;
      if !live[u] && (exists v :: v in succ[u] && live[v]) {
        var v :| v in succ[u] && live[v];
        LiveStep(dfa, u, v);
        NotLiveShrinks(live, u);
        live := live[u := true];
        changed := true;
      }
      todo := todo - {u};
    }
  }

  /** The distinct states u steps to, and the exploration after listing them. */
  method ListSuccessors(dfa: Dfa, u: State, stack0: seq<State>, seen0: set<State>) returns (outs: seq<State>, stack: seq<State>, seen: set<State>)
    requires dfa.Closed() && u in dfa.states && seen0 <= dfa.states
    requires forall i, j :: 0 <= i < j < |stack0| ==> stack0[i] != stack0[j]
    requires forall x :: x in stack0 ==> x in seen0
    ensures Successors(dfa, u, outs)
    ensures seen0 <= seen <= dfa.states && stack0 <= stack
    ensures forall i, j :: 0 <= i < j < |stack| ==> stack[i] != stack[j]
    ensures forall x :: x in seen <==> x in seen0 || x in outs
    ensures forall x :: x in stack <==> x in stack0 || (x in seen && x !in seen0)
  {
    outs, stack, seen := [], stack0, seen0;
    var b := 0;
    while b < 256
      invariant b <= 256
      invariant forall v :: v in outs <==> !dfa.Stuck(v) && exists c: Byte :: c < b && dfa.next(u, c) == v
      invariant seen0 <= seen <= dfa.states && stack0 <= stack
      invariant forall i, j :: 0 <= i < j < |stack| ==> stack[i] != stack[j]
      invariant forall x :: x in seen <==> x in seen0 || x in outs
      invariant forall x :: x in stack <==> x in stack0 || (x in seen && x !in seen0)
    {
      var c: Byte := b;
      var v := dfa.next(u, c);
      if !dfa.Stuck(v) {
        if v !in outs {
          outs := outs + [v];
        }
        if v !in seen {
          seen := seen + {v};
          stack := stack + [v];
        }
      }
      b := b + 1;
    }
  }

  /** Some bytes lead from s to x. */
  ghost predicate Reaches(dfa: Dfa, s: State, x: State) {
    exists w: seq<Byte> :: Run(dfa, s, w) == Some(x)
  }

  ghost predicate AllReached(dfa: Dfa, s: State, seen: set<State>) {
    forall x :: x in seen ==> Reaches(dfa, s, x)
  }

  lemma ReachesNext(dfa: Dfa, s: State, u: State, v: State)
    requires Reaches(dfa, s, u) && Steps(dfa, u, v)
    ensures Reaches(dfa, s, v)
  {
    var w: seq<Byte> :| Run(dfa, s, w) == Some(u);
    var c: Byte :| dfa.next(u, c) == v;
    RunConcat(dfa, s, w, [c]);
    assert [c][1..] == [];
    assert Run(dfa, s, w + [c]) == Some(v);
  }

  lemma StartReached(dfa: Dfa, s: State)
    ensures AllReached(dfa, s, {s})
  {
    assert Run(dfa, s, []) == Some(s);
  }

  lemma AllReachedNext(dfa: Dfa, s: State, seen: set<State>, u: State, outs: seq<State>, seen': set<State>)
    requires AllReached(dfa, s, seen) && u in seen && Successors(dfa, u, outs)
    requires forall x :: x in seen' <==> x in seen || x in outs
    ensures AllReached(dfa, s, seen')
  {
    hide Run, Reaches;
    forall v | v in outs ensures Reaches(dfa, s, v) {
      ReachesNext(dfa, s, u, v);
    }
  }

  /** The listed subgraph is closed under steps. */
  ghost predicate Listed(dfa: Dfa, succ: map<State, seq<State>>) {
    forall x :: x in succ ==> Successors(dfa, x, succ[x]) && forall v :: v in succ[x] ==> v in succ
  }

  lemma {:induction false} RunListed(dfa: Dfa, succ: map<State, seq<State>>, s: State, w: seq<Byte>)
    requires Listed(dfa, succ) && s in succ && Run(dfa, s, w).Some?
    ensures Run(dfa, s, w).value in succ
    decreases |w|
  {
    if w != [] {
      assert Steps(dfa, s, dfa.next(s, w[0]));
      RunListed(dfa, succ, dfa.next(s, w[0]), w[1..]);
    }
  }

  lemma ListedReached(dfa: Dfa, succ: map<State, seq<State>>, s: State)
    requires Listed(dfa, succ) && s in succ && AllReached(dfa, s, succ.Keys)
    ensures forall x :: x in succ <==> Reaches(dfa, s, x)
  {
    forall x | Reaches(dfa, s, x) ensures x in succ {
      var w: seq<Byte> :| Run(dfa, s, w) == Some(x);
      RunListed(dfa, succ, s, w);
    }
  }

  /** The subgraph reachable from s: exactly the states that bytes lead to, with their steps. */
  method Explore(dfa: Dfa, s: State) returns (succ: map<State, seq<State>>)
    requires dfa.Closed() && s in dfa.states
    ensures s in succ && Listed(dfa, succ)
    ensures forall x :: x in succ <==> Reaches(dfa, s, x)
  {
    hide Run, Reaches, AllReached, Successors;
    var stack, seen := [s], {s};
    succ := map[];
    StartReached(dfa, s);
    while stack != []
      invariant Explored(dfa, stack, seen, succ) && s in seen
      invariant AllReached(dfa, s, seen)
      decreases |dfa.states - succ.Keys|
    {
      var u := stack[|stack| - 1];
      assert u in stack && u in dfa.states - succ.Keys;
      ghost var rest := dfa.states - succ.Keys;
      ghost var stack0, seen0 := stack, seen;
      var outs;
      outs, stack, seen := ListSuccessors(dfa, u, stack[..|stack| - 1], seen);
      ExploredNext(dfa, stack0, seen0, succ, outs, stack, seen);
      AllReachedNext(dfa, s, seen0, u, outs, seen);
      succ := succ[u := outs];
      assert dfa.states - succ.Keys == rest - {u};
    }
    assert seen == succ.Keys;
    ListedReached(dfa, succ, s);
  }

  /** Taking the top state off the stack and listing its successors. */
  lemma ExploredNext(dfa: Dfa, stack: seq<State>, seen: set<State>, succ: map<State, seq<State>>, outs: seq<State>,
                     stack': seq<State>, seen': set<State>)
    requires Explored(dfa, stack, seen, succ) && stack != []
    requires Successors(dfa, stack[|stack| - 1], outs) && seen <= seen' <= dfa.states
    requires forall i, j :: 0 <= i < j < |stack'| ==> stack'[i] != stack'[j]
    requires forall x :: x in seen' <==> x in seen || x in outs
    requires forall x :: x in stack' <==> x in stack[..|stack| - 1] || (x in seen' && x !in seen)
    ensures Explored(dfa, stack', seen', succ[stack[|stack| - 1] := outs])
  {
    var n := |stack| - 1;
    assert stack[n] in stack;
    forall x | x in stack ensures x in stack[..n] <==> x != stack[n] {
      if x != stack[n] {
        var i :| 0 <= i < |stack| && stack[i] == x;
        assert stack[..n][i] == x;
      }
    }
  }

  // ---------------------------------------------------------------- tokens

  /** Surface bytes per token id; None for special tokens and partial pieces. */
  datatype TokenByteTable = TokenByteTable(bytes: seq<Option<seq<Byte>>>, eos: nat)

  /** The token's bytes can be read from s and a match is still reachable afterwards. */
  ghost predicate Viable(dfa: Dfa, table: TokenByteTable, s: State, id: nat) {
    && id < |table.bytes| && table.bytes[id].Some?
    && Run(dfa, s, table.bytes[id].value).Some?
    && Live(dfa, Run(dfa, s, table.bytes[id].value).value)
  }

  /** The mask row of a state. */
  ghost predicate MaskOf(dfa: Dfa, table: TokenByteTable, s: State, mask: seq<bool>) {
    |mask| == |table.bytes| && forall id :: 0 <= id < |mask| ==> (mask[id] <==> Viable(dfa, table, s, id))
  }

  /** The stop token may be drawn on a match, and when nothing at all is viable. */
  ghost predicate Permitted(dfa: Dfa, table: TokenByteTable, s: State, id: nat) {
    if id == table.eos then dfa.accept(s) || forall t :: 0 <= t < |table.bytes| ==> !Viable(dfa, table, s, t)
    else Viable(dfa, table, s, id)
  }

  /** The state after a drawn token. */
  function Advanced(dfa: Dfa, table: TokenByteTable, s: State, id: nat): State {
    if id == table.eos || id >= |table.bytes| || table.bytes[id].None? then s
    else match Run(dfa, s, table.bytes[id].value) case Some(t) => t case None => s
  }

  /** A logit: minus infinity, or a number. */
  datatype Logit = NegInf | Num(value: real)

  class RegexEngine {
    const dfa: Dfa
    const table: TokenByteTable
    var state: State
    var maskCache: map<State, seq<bool>>
    var liveCache: map<State, bool>

    ghost predicate Valid()
      reads this
    {
      && dfa.Closed() && state in dfa.states
      && (forall s :: s in liveCache ==> (liveCache[s] <==> Live(dfa, s)))
      && (forall s :: s in maskCache ==> MaskOf(dfa, table, s, maskCache[s]))
    }

    constructor Compiled(dfa: Dfa, table: TokenByteTable)
      requires dfa.Closed()
      ensures Valid() && this.dfa == dfa && this.table == table && state == dfa.start
    {
      this.dfa, this.table, state := dfa, table, dfa.start;
      maskCache, liveCache := map[], map[];
    }

    method Walk(from: State, bytes: seq<Byte>) returns (r: Option<State>)
      ensures r == Run(dfa, from, bytes)
    {
      var s := from;
      var i := 0;
      assert bytes[0..] == bytes;
      while i < |bytes|
        invariant i <= |bytes| && Run(dfa, s, bytes[i..]) == Run(dfa, from, bytes)
      {
        assert bytes[i..][1..] == bytes[i + 1..];
        s := dfa.next(s, bytes[i]);
        if dfa.Stuck(s) {
          return None;
        }
        i := i + 1;
      }
      return Some(s);
    }

    /** Whether some continuation of s reaches a match, remembered for every state looked at. */
    method IsLive(s: State) returns (live: bool)
      requires Valid() && s in dfa.states
      modifies this`liveCache
      ensures Valid() && (live <==> Live(dfa, s))
      ensures s in liveCache && forall x :: x in old(liveCache) ==> x in liveCache && liveCache[x] == old(liveCache)[x]
    {
      if s in liveCache {
        return liveCache[s];
      }
      var succ := Explore(dfa, s);
      var verdicts := Fixpoint(dfa, succ);
      live := verdicts[s];
      liveCache := liveCache + verdicts;
    }

    /** The state's mask row, computed once. */
    method AllowedMask(s: State) returns (mask: seq<bool>)
      requires Valid() && s in dfa.states
      modifies this`liveCache, this`maskCache
      ensures Valid() && MaskOf(dfa, table, s, mask) && s in maskCache
    {
      if s in maskCache {
        return maskCache[s];
      }
      mask := [];
      while |mask| < |table.bytes|
        invariant Valid() && maskCache == old(maskCache) && |mask| <= |table.bytes|
        invariant forall id :: 0 <= id < |mask| ==> (mask[id] <==> Viable(dfa, table, s, id))
      {
        var ok := false;
        var entry := table.bytes[|mask|];
        if entry.Some? {
          var t := Walk(s, entry.value);
          if t.Some? {
            RunClosed(dfa, s, entry.value);
            ok := IsLive(t.value);
          }
        }
        mask := mask + [ok];
      }
      maskCache := maskCache[s := mask];
    }
  }

  /** Repeats passes until nothing changes: exact verdicts for a subgraph closed under steps. */
  method Fixpoint(dfa: Dfa, succ: map<State, seq<State>>) returns (live: map<State, bool>)
    requires forall x :: x in succ ==> Successors(dfa, x, succ[x]) && forall v :: v in succ[x] ==> v in succ
    ensures live.Keys == succ.Keys && forall u :: u in live ==> (live[u] <==> Live(dfa, u))
  {
    live := map u | u in succ :: dfa.accept(u);
    forall u | u in live && live[u] ensures Live(dfa, u) {
      assert Accepts(dfa, u, []);
    }
    var changed := true;
    while changed
      invariant Sound(dfa, succ.Keys, live)
      invariant !changed ==> forall x :: x in succ ==> Settled(x, succ[x], live)
      decreases |NotLive(live)|, changed
    {
      live, changed := Pass(dfa, succ, live);
    }
    forall u | u in live && Live(dfa, u) ensures live[u] {
      var w :| Accepts(dfa, u, w);
      FixpointExact(dfa, succ, live, u, w);
    }
  }

  class LogitFSM {
    const banned: seq<nat>
    const regex: Option<RegexEngine>

    ghost predicate Valid()
      reads this, if regex.Some? then {regex.value} else {}
    {
      regex.Some? ==> regex.value.Valid()
    }

    constructor New(banned: seq<nat>, regex: Option<RegexEngine>)
      requires regex.Some? ==> regex.value.Valid()
      ensures Valid() && this.banned == banned && this.regex == regex
    {
      this.banned, this.regex := banned, regex;
    }

    /** Whether a logit survives: not banned, and permitted by the grammar in its current state. */
    ghost predicate Keeps(id: nat)
      reads this, if regex.Some? then {regex.value} else {}
    {
      id !in banned && (regex.Some? ==> Permitted(regex.value.dfa, regex.value.table, regex.value.state, id))
    }

    /** Masks the logits in place: exactly the ids that do not survive become minus infinity. */
    method ApplyMask(logits: array<Logit>)
      requires Valid()
      modifies logits, if regex.Some? then {regex.value} else {}
      ensures Valid() && (regex.Some? ==> regex.value.state == old(regex.value.state))
      ensures forall id :: 0 <= id < logits.Length ==> logits[id] == if Keeps(id) then old(logits[id]) else NegInf
    {
      var k := 0;
      while k < |banned|
        invariant k <= |banned| && Valid() && (regex.Some? ==> regex.value.state == old(regex.value.state))
        invariant forall id :: 0 <= id < logits.Length ==> logits[id] == if id in banned[..k] then NegInf else old(logits[id])
      {
        if banned[k] < logits.Length {
          logits[banned[k]] := NegInf;
        }
        k := k + 1;
      }
      assert banned[..k] == banned;
      if regex.Some? {
        MaskGrammar(logits);
      }
    }

    /** The grammar's part of the masking. */
    method MaskGrammar(logits: array<Logit>)
      requires Valid() && regex.Some?
      modifies logits, regex.value
      ensures Valid() && regex.value.state == old(regex.value.state)
      ensures forall id :: 0 <= id < logits.Length ==>
          logits[id] == if Permitted(regex.value.dfa, regex.value.table, regex.value.state, id) then old(logits[id]) else NegInf
    {
      var rx := regex.value;
      var s := rx.state;
      var allowed := rx.AllowedMask(s);
      var accept := rx.dfa.accept(s);
      var anyViable := exists t :: 0 <= t < |allowed| && allowed[t];
      var id := 0;
      while id < logits.Length
        invariant id <= logits.Length && Valid() && rx.state == s
        invariant forall j :: id <= j < logits.Length ==> logits[j] == old(logits[j])
        invariant forall j :: 0 <= j < id ==> logits[j] == if Permitted(rx.dfa, rx.table, s, j) then old(logits[j]) else NegInf
      {
        var ok := if id == rx.table.eos then accept || !anyViable else id < |allowed| && allowed[id];
        assert ok <==> Permitted(rx.dfa, rx.table, s, id);
        if !ok {
          logits[id] := NegInf;
        }
        id := id + 1;
      }
    }

    /** Feeds the token that was drawn. */
    method Advance(id: nat)
      requires Valid()
      modifies if regex.Some? then {regex.value} else {}
      ensures Valid()
      ensures regex.Some? ==> regex.value.state == Advanced(regex.value.dfa, regex.value.table, old(regex.value.state), id)
    {
      if regex.Some? {
        var rx := regex.value;
        if id == rx.table.eos {
          return;
        }
        if id < |rx.table.bytes| && rx.table.bytes[id].Some? {
          var next := rx.Walk(rx.state, rx.table.bytes[id].value);
          if next.Some? {
            RunClosed(rx.dfa, rx.state, rx.table.bytes[id].value);
            rx.state := next.value;
          }
        }
      }
    }
  }

  // ---------------------------------------------------------------- whole runs

  /** The bytes of a sequence of tokens. */
  function Surface(table: TokenByteTable, tokens: seq<nat>): seq<Byte> {
    if tokens == [] then []
    else
      var id := tokens[|tokens| - 1];
      Surface(table, tokens[..|tokens| - 1])
      + (if id < |table.bytes| && table.bytes[id].Some? then table.bytes[id].value else [])
  }

  /** The state after drawing the tokens from the start state. */
  function StateAfter(dfa: Dfa, table: TokenByteTable, tokens: seq<nat>): State {
    if tokens == [] then dfa.start
    else Advanced(dfa, table, StateAfter(dfa, table, tokens[..|tokens| - 1]), tokens[|tokens| - 1])
  }

  /** Every token was permitted where it was drawn, and none is the stop token. */
  ghost predicate PermittedRun(dfa: Dfa, table: TokenByteTable, tokens: seq<nat>) {
    forall k :: 0 <= k < |tokens| ==>
      tokens[k] != table.eos && Permitted(dfa, table, StateAfter(dfa, table, tokens[..k]), tokens[k])
  }

  /**
   Drawing only permitted tokens from a live start, the state is the automaton's over the emitted
   bytes and a match always stays reachable.
   */
  lemma {:induction false} ConstrainedRun(dfa: Dfa, table: TokenByteTable, tokens: seq<nat>)
    requires Live(dfa, dfa.start) && PermittedRun(dfa, table, tokens)
    ensures Run(dfa, dfa.start, Surface(table, tokens)) == Some(StateAfter(dfa, table, tokens))
    ensures Live(dfa, StateAfter(dfa, table, tokens))
    decreases |tokens|
  {
    if tokens != [] {
      var n := |tokens| - 1;
      forall k | 0 <= k < n ensures tokens[..n][..k] == tokens[..k] {
      }
      ConstrainedRun(dfa, table, tokens[..n]);
      assert Permitted(dfa, table, StateAfter(dfa, table, tokens[..n]), tokens[n]);
      RunConcat(dfa, dfa.start, Surface(table, tokens[..n]), table.bytes[tokens[n]].value);
    }
  }

  /** A table entry whose bytes begin a match still reachable from s is viable. */
  lemma {:induction false} PieceViable(dfa: Dfa, table: TokenByteTable, s: State, id: nat, rest: seq<Byte>)
    requires id < |table.bytes| && table.bytes[id].Some? && Accepts(dfa, s, table.bytes[id].value + rest)
    ensures Viable(dfa, table, s, id)
  {
    RunConcat(dfa, s, table.bytes[id].value, rest);
    assert Accepts(dfa, Run(dfa, s, table.bytes[id].value).value, rest);
  }

  /** The run has reached a state short of a match from which no table entry leads on. */
  ghost predicate DeadEnd(dfa: Dfa, table: TokenByteTable, tokens: seq<nat>) {
    && PermittedRun(dfa, table, tokens)
    && !dfa.accept(StateAfter(dfa, table, tokens))
    && forall id :: 0 <= id < |table.bytes| ==> !Viable(dfa, table, StateAfter(dfa, table, tokens), id)
  }

  /** Some table entry leads on from every unfinished state that permitted tokens reach. */
  ghost predicate NoDeadEnd(dfa: Dfa, table: TokenByteTable) {
    forall tokens :: !DeadEnd(dfa, table, tokens)
  }

  /** The run may stop exactly on a match. */
  ghost predicate StopsRight(dfa: Dfa, table: TokenByteTable, tokens: seq<nat>) {
    Permitted(dfa, table, StateAfter(dfa, table, tokens), table.eos) <==> Accepts(dfa, dfa.start, Surface(table, tokens))
  }

  /**
   Finished output is in the language: where every unfinished state has a token leading on, a run of
   permitted tokens may end with the stop token exactly when it has spelled a complete match.
   */
  lemma {:induction false} FinishedMatches(dfa: Dfa, table: TokenByteTable, tokens: seq<nat>)
    requires Live(dfa, dfa.start) && NoDeadEnd(dfa, table) && PermittedRun(dfa, table, tokens)
    ensures StopsRight(dfa, table, tokens)
  {
    ConstrainedRun(dfa, table, tokens);
    assert !DeadEnd(dfa, table, tokens);
  }

  /**
   That condition is exact, for any table: all permitted runs stop right if and only if none reaches a
   dead end, where the escape hatch would let an unfinished text stop.
   */
  lemma {:induction false} StopsRightIff(dfa: Dfa, table: TokenByteTable)
    requires Live(dfa, dfa.start)
    ensures (forall tokens :: PermittedRun(dfa, table, tokens) ==> StopsRight(dfa, table, tokens)) <==> NoDeadEnd(dfa, table)
  {
    forall tokens | DeadEnd(dfa, table, tokens) ensures PermittedRun(dfa, table, tokens) && !StopsRight(dfa, table, tokens) {
      ConstrainedRun(dfa, table, tokens);
    }
    if NoDeadEnd(dfa, table) {
      forall tokens | PermittedRun(dfa, table, tokens) ensures StopsRight(dfa, table, tokens) {
        FinishedMatches(dfa, table, tokens);
      }
    }
  }

  // ---------------------------------------------------------------- a text that stops short

  /** Reads the two bytes of one accented letter, and nothing else. */
  function TwoByteDfa(): Dfa {
    Dfa({0, 1, 2, 3}, 0, (s: State, b: Byte) => if s == 0 && b == 0xC3 then 1 else if s == 1 && b == 0xA9 then 2 else 3,
        s => s == 3, s => false, s => s == 2)
  }

  /** A token for every ASCII character, and a stop token. */
  function AsciiTable(): TokenByteTable {
    TokenByteTable(seq(129, i requires 0 <= i < 129 => if i < 128 then Some([i]) else None), 128)
  }

  /** With no token for a character the grammar needs, generation may stop at once, with nothing matched. */
  lemma StopsShort()
    ensures TwoByteDfa().Closed() && Live(TwoByteDfa(), 0) && PermittedRun(TwoByteDfa(), AsciiTable(), [])
    ensures Permitted(TwoByteDfa(), AsciiTable(), 0, 128) && !Accepts(TwoByteDfa(), 0, [])
    ensures DeadEnd(TwoByteDfa(), AsciiTable(), [])
  {
    var dfa, table := TwoByteDfa(), AsciiTable();
    var w: seq<Byte> := [0xC3, 0xA9];
    assert w[1..] == [0xA9] && w[1..][1..] == [];
    assert Run(dfa, 1, w[1..]) == Run(dfa, 2, []) == Some(2);
    assert Run(dfa, 0, w) == Some(2);
    assert Accepts(dfa, 0, w);
    forall id | 0 <= id < |table.bytes| ensures !Viable(dfa, table, 0, id) {
      if id < 128 {
        assert table.bytes[id] == Some([id]);
      }
    }
  }

  /** The mask never excludes a spelling: the tokens of a matching text, and of its every prefix, are permitted. */
  lemma {:induction false} SpellingPermitted(dfa: Dfa, table: TokenByteTable, tokens: seq<nat>, rest: seq<Byte>)
    requires forall k :: 0 <= k < |tokens| ==> tokens[k] < |table.bytes| && tokens[k] != table.eos && table.bytes[tokens[k]].Some?
    requires Accepts(dfa, dfa.start, Surface(table, tokens) + rest)
    ensures PermittedRun(dfa, table, tokens)
    ensures Run(dfa, dfa.start, Surface(table, tokens)) == Some(StateAfter(dfa, table, tokens))
    ensures Accepts(dfa, StateAfter(dfa, table, tokens), rest)
    decreases |tokens|
  {
    if tokens == [] {
      assert Surface(table, tokens) + rest == rest;
    } else {
      var n := |tokens| - 1;
      var init, bytes := tokens[..n], table.bytes[tokens[n]].value;
      Assoc(Surface(table, init), bytes, rest);
      SpellingPermitted(dfa, table, init, bytes + rest);
      var s := StateAfter(dfa, table, init);
      RunConcat(dfa, dfa.start, Surface(table, init), bytes);
      LastSpelled(dfa, table, s, tokens[n], rest);
      PermittedLast(dfa, table, tokens);
    }
  }

  lemma {:induction false} LastSpelled(dfa: Dfa, table: TokenByteTable, s: State, id: nat, rest: seq<Byte>)
    requires id < |table.bytes| && id != table.eos && table.bytes[id].Some?
    requires Accepts(dfa, s, table.bytes[id].value + rest)
    ensures Permitted(dfa, table, s, id) && Run(dfa, s, table.bytes[id].value) == Some(Advanced(dfa, table, s, id))
    ensures Accepts(dfa, Advanced(dfa, table, s, id), rest)
  {
    RunConcat(dfa, s, table.bytes[id].value, rest);
    assert Accepts(dfa, Run(dfa, s, table.bytes[id].value).value, rest);
  }

  lemma {:induction false} PermittedLast(dfa: Dfa, table: TokenByteTable, tokens: seq<nat>)
    requires tokens != [] && PermittedRun(dfa, table, tokens[..|tokens| - 1]) && tokens[|tokens| - 1] != table.eos
    requires Permitted(dfa, table, StateAfter(dfa, table, tokens[..|tokens| - 1]), tokens[|tokens| - 1])
    ensures PermittedRun(dfa, table, tokens)
  {
    var init := tokens[..|tokens| - 1];
    forall k | 0 <= k < |init| ensures tokens[k] != table.eos && Permitted(dfa, table, StateAfter(dfa, table, tokens[..k]), tokens[k]) {
      assert init[..k] == tokens[..k] && init[k] == tokens[k];
    }
  }

  /**
   Every token is masked in a state exactly when it is no match and the stop token's own table entry
   is the only viable one: that entry suppresses the escape hatch without being permitted itself.
   */
  lemma AllMaskedIff(dfa: Dfa, table: TokenByteTable, s: State)
    ensures (forall id :: 0 <= id <= Max(table.eos, |table.bytes|) ==> !Permitted(dfa, table, s, id))
            <==> !dfa.accept(s) && Viable(dfa, table, s, table.eos)
                 && forall id :: 0 <= id < |table.bytes| && id != table.eos ==> !Viable(dfa, table, s, id)
  {
    if forall id :: 0 <= id <= Max(table.eos, |table.bytes|) ==> !Permitted(dfa, table, s, id) {
      assert !Permitted(dfa, table, s, table.eos);
      forall id | 0 <= id < |table.bytes| && id != table.eos ensures !Viable(dfa, table, s, id) {
        assert !Permitted(dfa, table, s, id);
      }
    }
  }
}
