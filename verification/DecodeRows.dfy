/**
 The row layout of a batched decode: each decoding sequence contributes its unfed last token,
 followed by its draft tokens, at consecutive positions of its own slot.
 */
module DecodeRows {
  import opened Wrappers
  import opened KvModel
  import opened PagedDecoder
  import opened Schedule

  /** One sequence's rows: its last token and then its draft. */
  function SegRows(x: CbSeq, draft: seq<Token>): (rows: seq<Row>)
    requires x.tokens != []
    ensures |rows| == 1 + |draft|
  {
    var p := |x.tokens| - 1;
    var t := x.tokens + draft;
    seq(1 + |draft|, j requires 0 <= j < 1 + |draft| => Row(t[p + j], p + j, x.slot))
  }

  /** The rows of the first n sequences. */
  ghost function AllRows(active: seq<CbSeq>, drafts: seq<seq<Token>>, n: nat): seq<Row>
    requires n <= |active| == |drafts| && forall i :: 0 <= i < |active| ==> active[i].tokens != []
  {
    if n == 0 then [] else AllRows(active, drafts, n - 1) + SegRows(active[n - 1], drafts[n - 1])
  }

  /** Distinct slots, each holding the KV of everything but the sequence's last token. */
  ghost predicate Layout(ctx: seq<seq<Token>>, active: seq<CbSeq>) {
    && (forall i :: 0 <= i < |active| ==> HasHistory(ctx, active[i]))
    && (forall i, j :: 0 <= i < j < |active| ==> active[i].slot != active[j].slot)
  }

  ghost predicate HasHistory(ctx: seq<seq<Token>>, x: CbSeq) {
    x.tokens != [] && x.slot < |ctx| && x.tokens[..|x.tokens| - 1] <= ctx[x.slot]
  }

  // ---------------------------------------------------------------- concatenated rows

  lemma {:induction false} FeedPrefix(ctx: seq<seq<Token>>, a: seq<Row>, b: seq<Row>, k: nat)
    requires k <= |a|
    ensures FeedRows(ctx, a + b, k) == FeedRows(ctx, a, k)
  {
    if k > 0 {
      FeedPrefix(ctx, a, b, k - 1);
    }
  }

  lemma {:induction false} FeedConcat(ctx: seq<seq<Token>>, a: seq<Row>, b: seq<Row>, k: nat)
    requires k <= |b|
    ensures FeedRows(ctx, a + b, |a| + k) == FeedRows(FeedRows(ctx, a, |a|), b, k)
  {
    if k == 0 {
      FeedPrefix(ctx, a, b, |a|);
    } else {
      FeedConcat(ctx, a, b, k - 1);
      assert (a + b)[|a| + k - 1] == b[k - 1];
    }
  }

  lemma {:induction false} GrowConcat(held: seq<nat>, a: seq<Row>, b: seq<Row>, k: nat)
    requires k <= |b|
    ensures Grow(held, a + b, |a| + k) == Grow(Grow(held, a, |a|), b, k)
  {
    if k == 0 {
      GrowPrefix(held, a, b, |a|);
    } else {
      GrowConcat(held, a, b, k - 1);
      assert (a + b)[|a| + k - 1] == b[k - 1];
    }
  }

  lemma {:induction false} GrowPrefix(held: seq<nat>, a: seq<Row>, b: seq<Row>, k: nat)
    requires k <= |a|
    ensures Grow(held, a + b, k) == Grow(held, a, k)
  {
    if k > 0 {
      GrowPrefix(held, a, b, k - 1);
    }
  }

  // ---------------------------------------------------------------- one sequence

  lemma FeedOne(ctx: seq<seq<Token>>, c: seq<seq<Token>>, slot: nat, t: seq<Token>, q: nat)
    requires slot < |ctx| == |c| && q < |t| && q <= |c[slot]| && c[slot][..q] == t[..q]
    requires c == ctx[slot := c[slot]]
    ensures FeedRow(c, Row(t[q], q, slot)) == ctx[slot := t[..q + 1]]
  {
    assert t[..q] + [t[q]] == t[..q + 1];
  }

  lemma {:induction false} SegFeed(ctx: seq<seq<Token>>, x: CbSeq, draft: seq<Token>, k: nat)
    requires HasHistory(ctx, x) && k <= 1 + |draft|
    ensures k == 0 ==> FeedRows(ctx, SegRows(x, draft), k) == ctx
    ensures k > 0 ==> FeedRows(ctx, SegRows(x, draft), k) == ctx[x.slot := (x.tokens + draft)[..|x.tokens| - 1 + k]]
  {
    if k > 0 {
      SegFeed(ctx, x, draft, k - 1);
      var t, q: nat := x.tokens + draft, |x.tokens| - 1 + k - 1;
      var c := FeedRows(ctx, SegRows(x, draft), k - 1);
      assert c[x.slot][..q] == t[..q] by {
        if k == 1 {
          assert x.tokens[..q] == t[..q];
        }
      }
      FeedOne(ctx, c, x.slot, t, q);
    }
  }

  lemma {:induction false} SegGrow(held: seq<nat>, x: CbSeq, draft: seq<Token>, k: nat)
    requires x.tokens != [] && x.slot < |held| && k <= 1 + |draft|
    ensures k == 0 ==> Grow(held, SegRows(x, draft), k) == held
    ensures k > 0 ==> Grow(held, SegRows(x, draft), k) == held[x.slot := Max(held[x.slot], Blocks(|x.tokens| - 1 + k))]
  {
    if k > 0 {
      SegGrow(held, x, draft, k - 1);
    }
  }

  // ---------------------------------------------------------------- the batch

  /** Everything the first n sequences fed is resident; other slots are untouched. */
  ghost predicate Fed(ctx: seq<seq<Token>>, c: seq<seq<Token>>, active: seq<CbSeq>, drafts: seq<seq<Token>>, n: nat)
    requires n <= |active| == |drafts| && |c| == |ctx|
  {
    && (forall i :: 0 <= i < n ==> active[i].slot < |c| && c[active[i].slot] == active[i].tokens + drafts[i])
    && (forall t :: 0 <= t < |ctx| && (forall i :: 0 <= i < n ==> active[i].slot != t) ==> c[t] == ctx[t])
  }

  /** The contexts after the first n sequences' rows. */
  ghost function After(ctx: seq<seq<Token>>, active: seq<CbSeq>, drafts: seq<seq<Token>>, n: nat): (c: seq<seq<Token>>)
    requires n <= |active| == |drafts| && forall i :: 0 <= i < |active| ==> active[i].tokens != []
    ensures |c| == |ctx|
  {
    var rows := AllRows(active, drafts, n);
    FeedRows(ctx, rows, |rows|)
  }

  lemma AfterStep(ctx: seq<seq<Token>>, active: seq<CbSeq>, drafts: seq<seq<Token>>, n: nat)
    requires 0 < n <= |active| == |drafts| && forall i :: 0 <= i < |active| ==> active[i].tokens != []
    requires HasHistory(After(ctx, active, drafts, n - 1), active[n - 1])
    ensures After(ctx, active, drafts, n)
         == After(ctx, active, drafts, n - 1)[active[n - 1].slot := active[n - 1].tokens + drafts[n - 1]]
  {
    var x, d := active[n - 1], drafts[n - 1];
    var a, b := AllRows(active, drafts, n - 1), SegRows(x, d);
    FeedConcat(ctx, a, b, |b|);
    SegFeed(After(ctx, active, drafts, n - 1), x, d, |b|);
    assert (x.tokens + d)[..|x.tokens| - 1 + |b|] == x.tokens + d;
  }

  lemma {:induction false} AllFeed(ctx: seq<seq<Token>>, active: seq<CbSeq>, drafts: seq<seq<Token>>, n: nat)
    requires Layout(ctx, active) && n <= |active| == |drafts|
    ensures Fed(ctx, After(ctx, active, drafts, n), active, drafts, n)
  {
    if n > 0 {
      AllFeed(ctx, active, drafts, n - 1);
      var c := After(ctx, active, drafts, n - 1);
      assert HasHistory(c, active[n - 1]) by {
        assert HasHistory(ctx, active[n - 1]);
        assert c[active[n - 1].slot] == ctx[active[n - 1].slot];
      }
      AfterStep(ctx, active, drafts, n);
      FedStep(ctx, c, active, drafts, n);
    }
  }

  lemma FedStep(ctx: seq<seq<Token>>, c: seq<seq<Token>>, active: seq<CbSeq>, drafts: seq<seq<Token>>, n: nat)
    requires 0 < n <= |active| == |drafts| && |c| == |ctx| && Fed(ctx, c, active, drafts, n - 1)
    requires active[n - 1].slot < |c|
    requires forall i, j :: 0 <= i < j < |active| ==> active[i].slot != active[j].slot
    ensures Fed(ctx, c[active[n - 1].slot := active[n - 1].tokens + drafts[n - 1]], active, drafts, n)
  {
  }

  /** The contexts once k of sequence i's rows are in. */
  lemma SegUpTo(ctx: seq<seq<Token>>, active: seq<CbSeq>, drafts: seq<seq<Token>>, i: nat, k: nat)
    requires Layout(ctx, active) && i < |active| == |drafts| && k <= 1 + |drafts[i]|
    ensures var a := AllRows(active, drafts, i);
            var c := After(ctx, active, drafts, i);
            var x := active[i];
            && |AllRows(active, drafts, i + 1)| == |a| + 1 + |drafts[i]|
            && c[x.slot] == ctx[x.slot]
            && FeedRows(ctx, AllRows(active, drafts, i + 1), |a| + k)
            == if k == 0 then c else c[x.slot := (x.tokens + drafts[i])[..|x.tokens| - 1 + k]]
  {
    var a, b := AllRows(active, drafts, i), SegRows(active[i], drafts[i]);
    assert AllRows(active, drafts, i + 1) == a + b;
    BeforeSeg(ctx, active, drafts, i);
    FeedConcat(ctx, a, b, k);
    SegFeed(After(ctx, active, drafts, i), active[i], drafts[i], k);
  }

  lemma BeforeSeg(ctx: seq<seq<Token>>, active: seq<CbSeq>, drafts: seq<seq<Token>>, i: nat)
    requires Layout(ctx, active) && i < |active| == |drafts|
    ensures HasHistory(ctx, active[i]) && HasHistory(After(ctx, active, drafts, i), active[i])
    ensures After(ctx, active, drafts, i)[active[i].slot] == ctx[active[i].slot]
  {
    assert HasHistory(ctx, active[i]);
    AllFeed(ctx, active, drafts, i);
  }

  /** Row j of sequence i attends the sequence's history and the first j draft tokens. */
  lemma SegAttended(ctx: seq<seq<Token>>, active: seq<CbSeq>, drafts: seq<seq<Token>>, i: nat, j: nat)
    requires Layout(ctx, active) && i < |active| == |drafts| && j <= |drafts[i]|
    ensures var a := AllRows(active, drafts, i);
            var rows := AllRows(active, drafts, i + 1);
            && |rows| == |a| + 1 + |drafts[i]|
            && rows[|a| + j].slot == active[i].slot
            && Attended(ctx, rows, |a| + j) == active[i].tokens + drafts[i][..j]
            && BeforeRow(ctx, rows, |a| + j) >= |active[i].tokens| - 1 + j
  {
    SegUpTo(ctx, active, drafts, i, j);
    SegUpTo(ctx, active, drafts, i, j + 1);
    assert HasHistory(ctx, active[i]);
    var t := active[i].tokens + drafts[i];
    assert t[..|active[i].tokens| + j] == active[i].tokens + drafts[i][..j];
  }

  /** The length of the context row k writes into. */
  ghost function BeforeRow(ctx: seq<seq<Token>>, rows: seq<Row>, k: nat): nat
    requires k < |rows| && rows[k].slot < |ctx|
  {
    |FeedRows(ctx, rows, k)[rows[k].slot]|
  }

  lemma {:induction false} RowsPrefix(active: seq<CbSeq>, drafts: seq<seq<Token>>, i: nat, n: nat)
    requires i <= n <= |active| == |drafts| && forall x :: x in active ==> x.tokens != []
    ensures AllRows(active, drafts, i) <= AllRows(active, drafts, n)
  {
    if i < n {
      RowsPrefix(active, drafts, i, n - 1);
    }
  }

  /** The same fact about the whole batch's rows. */
  lemma BatchAttended(ctx: seq<seq<Token>>, active: seq<CbSeq>, drafts: seq<seq<Token>>, i: nat, j: nat)
    requires Layout(ctx, active) && i < |active| == |drafts| && j <= |drafts[i]|
    ensures var start := |AllRows(active, drafts, i)|;
            var rows := AllRows(active, drafts, |active|);
            && start + |drafts[i]| < |rows|
            && rows[start + j] == SegRows(active[i], drafts[i])[j]
            && Attended(ctx, rows, start + j) == active[i].tokens + drafts[i][..j]
            && BeforeRow(ctx, rows, start + j) >= |active[i].tokens| - 1 + j
  {
    var a := AllRows(active, drafts, i);
    var b := AllRows(active, drafts, i + 1);
    var rows := AllRows(active, drafts, |active|);
    SegAttended(ctx, active, drafts, i, j);
    RowsPrefix(active, drafts, i + 1, |active|);
    assert rows == b + rows[|b|..];
    FeedPrefix(ctx, b, rows[|b|..], |a| + j);
    FeedPrefix(ctx, b, rows[|b|..], |a| + j + 1);
  }

  lemma {:induction false} Locate(active: seq<CbSeq>, drafts: seq<seq<Token>>, n: nat, q: nat) returns (i: nat, j: nat)
    requires n <= |active| == |drafts| && forall x :: 0 <= x < |active| ==> active[x].tokens != []
    requires q < |AllRows(active, drafts, n)|
    ensures i < n && j <= |drafts[i]| && q == |AllRows(active, drafts, i)| + j
  {
    var a := AllRows(active, drafts, n - 1);
    if q < |a| {
      i, j := Locate(active, drafts, n - 1, q);
    } else {
      i, j := n - 1, q - |a|;
    }
  }

  /** The batch can be fed: every row lands in resident context and inside the window. */
  lemma {:induction false} BatchFeedable(ctx: seq<seq<Token>>, shared: seq<nat>, maxSeq: nat, active: seq<CbSeq>, drafts: seq<seq<Token>>)
    requires Layout(ctx, active) && |active| == |drafts| && |shared| == |ctx|
    requires forall i :: 0 <= i < |active| ==> BLOCK * shared[active[i].slot] <= |active[i].tokens| - 1
    requires forall i :: 0 <= i < |active| ==> |active[i].tokens| + |drafts[i]| <= maxSeq
    ensures Feedable(ctx, shared, maxSeq, AllRows(active, drafts, |active|))
  {
    var rows := AllRows(active, drafts, |active|);
    forall q | 0 <= q < |rows| ensures RowFits(ctx, shared, maxSeq, rows, q) {
      var i, j := Locate(active, drafts, |active|, q);
      BatchAttended(ctx, active, drafts, i, j);
    }
  }

  // ---------------------------------------------------------------- blocks

  ghost function ShortOf(held: nat, n: nat): nat {
    if Blocks(n) > held then Blocks(n) - held else 0
  }

  /** The blocks the first n sequences still need. */
  ghost function NeededTo(held: seq<nat>, active: seq<CbSeq>, drafts: seq<seq<Token>>, n: nat): nat
    requires n <= |active| == |drafts| && forall i :: 0 <= i < |active| ==> active[i].slot < |held|
  {
    if n == 0 then 0
    else
      var last := ShortOf(held[active[n - 1].slot], |active[n - 1].tokens| + |drafts[n - 1]|);
      NeededTo(held, active, drafts, n - 1) + last
  }

  /** Holdings after the first n sequences' rows. */
  ghost function GrownAfter(held: seq<nat>, active: seq<CbSeq>, drafts: seq<seq<Token>>, n: nat): (h: seq<nat>)
    requires n <= |active| == |drafts| && forall i :: 0 <= i < |active| ==> active[i].tokens != []
    ensures |h| == |held|
  {
    var rows := AllRows(active, drafts, n);
    Grow(held, rows, |rows|)
  }

  lemma GrownStep(held: seq<nat>, active: seq<CbSeq>, drafts: seq<seq<Token>>, n: nat)
    requires 0 < n <= |active| == |drafts| && forall i :: 0 <= i < |active| ==> active[i].tokens != []
    requires active[n - 1].slot < |held|
    ensures var h := GrownAfter(held, active, drafts, n - 1);
            var x := active[n - 1];
            GrownAfter(held, active, drafts, n) == h[x.slot := Max(h[x.slot], Blocks(|x.tokens| + |drafts[n - 1]|))]
  {
    var a, b := AllRows(active, drafts, n - 1), SegRows(active[n - 1], drafts[n - 1]);
    GrowConcat(held, a, b, |b|);
    SegGrow(GrownAfter(held, active, drafts, n - 1), active[n - 1], drafts[n - 1], |b|);
  }

  lemma {:induction false} AllGrow(held: seq<nat>, active: seq<CbSeq>, drafts: seq<seq<Token>>, n: nat)
    requires n <= |active| == |drafts|
    requires forall i :: 0 <= i < |active| ==> active[i].slot < |held| && active[i].tokens != []
    requires forall i, j :: 0 <= i < j < |active| ==> active[i].slot != active[j].slot
    ensures forall t :: 0 <= t < |held| && (forall i :: 0 <= i < n ==> active[i].slot != t) ==>
              GrownAfter(held, active, drafts, n)[t] == held[t]
    ensures Sum(GrownAfter(held, active, drafts, n)) == Sum(held) + NeededTo(held, active, drafts, n)
  {
    if n > 0 {
      var x := active[n - 1];
      AllGrow(held, active, drafts, n - 1);
      var h := GrownAfter(held, active, drafts, n - 1);
      assert h[x.slot] == held[x.slot];
      GrownStep(held, active, drafts, n);
      SumUpdate(h, x.slot, Max(h[x.slot], Blocks(|x.tokens| + |drafts[n - 1]|)));
    }
  }

  /** With a pool that fits every slot at full length, no batch inside the window runs out of blocks. */
  lemma {:induction false} FullPool(held: seq<nat>, ctx: seq<seq<Token>>, shared: seq<nat>, maxSeq: nat, rows: seq<Row>, n: nat)
    requires |held| == |ctx| == |shared| && n <= |rows| && Feedable(ctx, shared, maxSeq, rows)
    requires forall t :: 0 <= t < |held| ==> held[t] <= Blocks(maxSeq)
    ensures forall t :: 0 <= t < |held| ==> Grow(held, rows, n)[t] <= Blocks(maxSeq)
  {
    if n > 0 {
      assert RowFits(ctx, shared, maxSeq, rows, n - 1);
      FullPool(held, ctx, shared, maxSeq, rows, n - 1);
    }
  }
}
