/**
 Expressions whose words can always be finished with characters of one kind: each literal is of that
 kind, and each class has a member of it.
 */
module Completion {
  import opened Wrappers
  import opened Regex

  /** `c` is in the class. */
  predicate InClass(negated: bool, ranges: seq<(char, char)>, c: char) {
    InRanges(ranges, c) <==> !negated
  }

  ghost predicate Rich(r: Regex, ok: char -> bool) {
    match r
    case Chr(c) => ok(c)
    case Class(negated, ranges) => exists c :: ok(c) && InClass(negated, ranges, c)
    case Cat(rs) => forall i :: 0 <= i < |rs| ==> Rich(rs[i], ok)
    case Alt(rs) => forall i :: 0 <= i < |rs| ==> Rich(rs[i], ok)
    case Opt(x) => Rich(x, ok)
    case Star(x) => Rich(x, ok)
    case Plus(x) => Rich(x, ok)
    case Times(x, n) => Rich(x, ok)
  }

  ghost predicate RichSeq(rs: seq<Regex>, ok: char -> bool) {
    forall i :: 0 <= i < |rs| ==> Rich(rs[i], ok)
  }

  /** v goes on from the first k characters of w, for as long as w does, with characters that are ok. */
  ghost predicate Completes(v: string, w: string, k: nat, ok: char -> bool) {
    |v| == |w| && k <= |w| && v[..k] == w[..k] && forall i :: k <= i < |v| ==> ok(v[i])
  }

  lemma CompletesJoin(v: string, w: string, v': string, w': string, k: nat, ok: char -> bool)
    requires k <= |w| + |w'|
    requires Completes(v, w, Min(k, |w|), ok) && Completes(v', w', Max(k - |w|, 0), ok)
    ensures Completes(v + v', w + w', k, ok)
  {
    var x, y := v + v', w + w';
    forall i | 0 <= i < k ensures x[i] == y[i] {
      if i < |w| {
        assert v[..Min(k, |w|)][i] == w[..Min(k, |w|)][i];
      } else {
        assert v'[..k - |w|][i - |w|] == w'[..k - |w|][i - |w|];
      }
    }
    forall i | k <= i < |x| ensures ok(x[i]) {
      if i < |v| {
        assert x[i] == v[i];
      } else {
        assert x[i] == v'[i - |v|];
      }
    }
  }

  /** Any word of a rich expression can be finished from any position on with characters that are ok. */
  lemma {:induction false} Completed(r: Regex, ok: char -> bool, w: string, k: nat) returns (v: string)
    requires Rich(r, ok) && In(r, w) && k <= |w|
    ensures In(r, v) && Completes(v, w, k, ok)
    decreases r, 1, 0
  {
    hide Flatten;
    match r
    case Chr(c) =>
      v := w;
    case Class(negated, ranges) =>
      if k == 0 {
        var c :| ok(c) && InClass(negated, ranges, c);
        v := [c];
      } else {
        v := w;
      }
    case Cat(rs) =>
      var ws: seq<string> :| |ws| == |rs| && Flatten(ws) == w && forall i :: 0 <= i < |rs| ==> In(rs[i], ws[i]);
      var vs := CompletedWords(r, rs, ok, ws, k);
      v := Flatten(vs);
    case Alt(rs) =>
      var i :| 0 <= i < |rs| && In(rs[i], w);
      v := Completed(rs[i], ok, w, k);
    case Opt(x) =>
      if w == "" {
        v := w;
      } else {
        v := Completed(x, ok, w, k);
      }
    case Star(x) =>
      var ws: seq<string> :| Flatten(ws) == w && forall i :: 0 <= i < |ws| ==> In(x, ws[i]);
      var vs := CompletedCopies(r, x, ok, ws, k);
      v := Flatten(vs);
    case Plus(x) =>
      var ws: seq<string> :| |ws| >= 1 && Flatten(ws) == w && forall i :: 0 <= i < |ws| ==> In(x, ws[i]);
      var vs := CompletedCopies(r, x, ok, ws, k);
      v := Flatten(vs);
    case Times(x, n) =>
      var ws: seq<string> :| |ws| == n && Flatten(ws) == w && forall i :: 0 <= i < |ws| ==> In(x, ws[i]);
      var vs := CompletedCopies(r, x, ok, ws, k);
      v := Flatten(vs);
  }

  lemma {:induction false} CompletedCopies(parent: Regex, x: Regex, ok: char -> bool, ws: seq<string>, k: nat) returns (vs: seq<string>)
    requires x < parent && Rich(x, ok) && k <= |Flatten(ws)| && forall i :: 0 <= i < |ws| ==> In(x, ws[i])
    ensures |vs| == |ws| && Completes(Flatten(vs), Flatten(ws), k, ok) && forall i :: 0 <= i < |vs| ==> In(x, vs[i])
    decreases parent, 0, |ws| + 1
  {
    vs := CompletedWords(parent, seq(|ws|, _ => x), ok, ws, k);
  }

  /** The same word by word. */
  lemma {:induction false} CompletedWords(parent: Regex, xs: seq<Regex>, ok: char -> bool, ws: seq<string>, k: nat) returns (vs: seq<string>)
    requires |xs| == |ws| && k <= |Flatten(ws)|
    requires forall i :: 0 <= i < |xs| ==> xs[i] < parent && Rich(xs[i], ok) && In(xs[i], ws[i])
    ensures |vs| == |ws| && Completes(Flatten(vs), Flatten(ws), k, ok) && forall i :: 0 <= i < |vs| ==> In(xs[i], vs[i])
    decreases parent, 0, |ws|
  {
    if ws == [] {
      vs := [];
    } else {
      var v := Completed(xs[0], ok, ws[0], Min(k, |ws[0]|));
      var rest := CompletedWords(parent, xs[1..], ok, ws[1..], Max(k - |ws[0]|, 0));
      vs := [v] + rest;
      assert vs[1..] == rest;
      CompletesJoin(v, ws[0], Flatten(rest), Flatten(ws[1..]), k, ok);
    }
  }
}
