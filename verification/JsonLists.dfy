/** Separated lists, brackets and members: their pattern texts, pieces and languages. */
module JsonLists {
  import opened Wrappers
  import opened Regex
  import opened JsonTokens
  import opened JsonTokenTexts

  const SEP: string := SP + ("," + SP)
  const SEP_RS: seq<Regex> := SP_RS + ([Chr(',')] + SP_RS)

  // ---------------------------------------------------------------- texts

  /** The language of the i-th element of a list. */
  type Langs = (nat, string) -> bool

  predicate IsSep(w: string) {
    w == "," || w == " ," || w == ", " || w == " , "
  }

  /** n element texts in order, joined by separators. */
  ghost predicate Joined(langs: Langs, n: nat, w: string)
    decreases n, 0
  {
    if n == 0 then false
    else if n == 1 then langs(0, w)
    else exists i: nat, j: nat :: JoinedAt(langs, n, w, i, j)
  }

  /** The last of n elements starts at j, after a separator from i. */
  ghost predicate JoinedAt(langs: Langs, n: nat, w: string, i: nat, j: nat)
    requires n >= 2
    decreases n - 1, 1
  {
    i <= j <= |w| && Joined(langs, n - 1, w[..i]) && IsSep(w[i..j]) && langs(n - 1, w[j..])
  }

  /** `open`, optional space, a text of the language, optional space, `close`. */
  ghost predicate Bracketed(open: char, close: char, inner: string -> bool, w: string) {
    exists i: nat, j: nat :: BracketedAt(open, close, inner, w, i, j)
  }

  ghost predicate BracketedAt(open: char, close: char, inner: string -> bool, w: string, i: nat, j: nat) {
    && 1 <= i <= j < |w| && w[0] == open && w[|w| - 1] == close
    && IsSpace(w[1..i]) && inner(w[i..j]) && IsSpace(w[j..|w| - 1])
  }

  /** A key, optional space, a colon, optional space, a value. */
  ghost predicate Member(key: string -> bool, value: string -> bool, w: string) {
    exists i: nat, c: nat, j: nat :: MemberAt(key, value, w, i, c, j)
  }

  ghost predicate MemberAt(key: string -> bool, value: string -> bool, w: string, i: nat, c: nat, j: nat) {
    && i <= c < j <= |w| && key(w[..i]) && IsSpace(w[i..c]) && w[c] == ':' && IsSpace(w[c + 1..j]) && value(w[j..])
  }

  // ---------------------------------------------------------------- patterns

  /** The first n texts joined by separators. */
  function JoinTo(ps: seq<string>, n: nat): string
    requires 1 <= n <= |ps|
  {
    if n == 1 then ps[0] else JoinTo(ps, n - 1) + (SEP + ps[n - 1])
  }

  function JoinRs(rss: seq<seq<Regex>>, n: nat): seq<Regex>
    requires 1 <= n <= |rss|
  {
    if n == 1 then rss[0] else JoinRs(rss, n - 1) + (SEP_RS + rss[n - 1])
  }

  /** Any number of further elements. */
  function MoreText(item: string): string {
    "(" + (SEP + item) + ")" + "*"
  }

  function MoreR(rs: seq<Regex>): Regex {
    Star(Cat(SEP_RS + rs))
  }

  /** An optional list of any length. */
  function ListText(item: string): string {
    "(" + (item + MoreText(item)) + ")" + "?"
  }

  function ListR(rs: seq<Regex>): Regex {
    Opt(Cat(rs + [MoreR(rs)]))
  }

  function BracketText(open: char, body: string, close: char): string {
    EscChar(open) + (SP + (body + (SP + EscChar(close))))
  }

  function BracketRs(open: char, rs: seq<Regex>, close: char): seq<Regex> {
    [Chr(open)] + (SP_RS + (rs + (SP_RS + [Chr(close)])))
  }

  function MemberText(key: string, value: string): string {
    key + (SP + (":" + (SP + value)))
  }

  function MemberRs(key: seq<Regex>, value: seq<Regex>): seq<Regex> {
    key + (SP_RS + ([Chr(':')] + (SP_RS + value)))
  }

  // ---------------------------------------------------------------- patterns are fragments

  lemma SepFrag()
    ensures Frag(SEP, SEP_RS) && Clean(SEP)
  {
    SpFrag();
    FragLetter(',');
    FragJoin(",", [Chr(',')], SP, SP_RS, "," + SP, [Chr(',')] + SP_RS);
    FragJoin(SP, SP_RS, "," + SP, [Chr(',')] + SP_RS, SEP, SEP_RS);
  }

  ghost predicate CleanFrags(ps: seq<string>, rss: seq<seq<Regex>>) {
    Frags(ps, rss) && forall i :: 0 <= i < |ps| ==> Clean(ps[i])
  }

  lemma {:induction false} JoinFrag(ps: seq<string>, rss: seq<seq<Regex>>, n: nat)
    requires CleanFrags(ps, rss) && 1 <= n <= |ps|
    ensures Frag(JoinTo(ps, n), JoinRs(rss, n)) && Clean(JoinTo(ps, n))
  {
    if n > 1 {
      JoinFrag(ps, rss, n - 1);
      SepFrag();
      FragCat(SEP, SEP_RS, ps[n - 1], rss[n - 1]);
      FragCat(JoinTo(ps, n - 1), JoinRs(rss, n - 1), SEP + ps[n - 1], SEP_RS + rss[n - 1]);
    }
  }

  lemma MoreFrag(item: string, rs: seq<Regex>)
    requires Frag(item, rs) && Clean(item)
    ensures Frag(MoreText(item), [MoreR(rs)]) && Clean(MoreText(item))
  {
    SepFrag();
    FragCat(SEP, SEP_RS, item, rs);
    FragSingle(SEP + item, SEP_RS + rs, "*", MoreR(rs));
  }

  lemma ListFrag(item: string, rs: seq<Regex>)
    requires Frag(item, rs) && Clean(item)
    ensures Frag(ListText(item), [ListR(rs)]) && Clean(ListText(item))
  {
    MoreFrag(item, rs);
    FragCat(item, rs, MoreText(item), [MoreR(rs)]);
    FragSingle(item + MoreText(item), rs + [MoreR(rs)], "?", ListR(rs));
  }

  lemma BracketFrag(open: char, body: string, rs: seq<Regex>, close: char)
    requires Frag(body, rs) && Clean(body)
    ensures Frag(BracketText(open, body, close), BracketRs(open, rs, close))
    ensures Clean(BracketText(open, body, close))
  {
    SpFrag();
    FragLetter(open);
    FragLetter(close);
    FragCat(SP, SP_RS, EscChar(close), [Chr(close)]);
    FragCat(body, rs, SP + EscChar(close), SP_RS + [Chr(close)]);
    FragCat(SP, SP_RS, body + (SP + EscChar(close)), rs + (SP_RS + [Chr(close)]));
    FragCat(EscChar(open), [Chr(open)], SP + (body + (SP + EscChar(close))), SP_RS + (rs + (SP_RS + [Chr(close)])));
  }

  lemma MemberFrag(key: string, krs: seq<Regex>, value: string, vrs: seq<Regex>)
    requires Frag(key, krs) && Clean(key) && Frag(value, vrs) && Clean(value)
    ensures Frag(MemberText(key, value), MemberRs(krs, vrs)) && Clean(MemberText(key, value))
  {
    SpFrag();
    FragLetter(':');
    FragCat(SP, SP_RS, value, vrs);
    FragCat(":", [Chr(':')], SP + value, SP_RS + vrs);
    FragCat(SP, SP_RS, ":" + (SP + value), [Chr(':')] + (SP_RS + vrs));
    FragCat(key, krs, SP + (":" + (SP + value)), SP_RS + ([Chr(':')] + (SP_RS + vrs)));
  }

  // ---------------------------------------------------------------- languages of the patterns

  lemma SepLang(w: string)
    ensures InSeq(SEP_RS, w) <==> IsSep(w)
  {
    var rest := [Chr(',')] + SP_RS;
    assert SEP_RS == [Opt(Chr(' '))] + rest;
    OptThen(Chr(' '), rest, w);
    CommaSpace(w);
    if w != "" {
      CommaSpace(w[1..]);
      assert w[0] == ' ' && InSeq(rest, w[1..]) ==> w[..1] == " " && HeadSplit(Chr(' '), rest, w, 1);
    }
    if k: nat :| HeadSplit(Chr(' '), rest, w, k) {
      assert |w[..k]| == 1 && w[0] == w[..k][0];
    }
    assert |w| == 2 && w[0] == ' ' ==> w == [' '] + w[1..];
    assert |w| == 3 && w[0] == ' ' ==> w == [' '] + w[1..];
  }

  lemma CommaSpace(w: string)
    ensures InSeq([Chr(',')] + SP_RS, w) <==> w == "," || w == ", "
  {
    SingleThen(Chr(','), SP_RS, w);
    if w != "" {
      SpLang(w[1..]);
      assert w == [w[0]] + w[1..];
    }
  }

  /** rs matches exactly the texts of the i-th language. */
  ghost predicate Denotes(rs: seq<Regex>, langs: Langs, i: nat) {
    forall w :: InSeq(rs, w) <==> langs(i, w)
  }

  lemma JoinedMore(langs: Langs, n: nat, u: string, s: string, v: string)
    requires n >= 1 && Joined(langs, n, u) && IsSep(s) && langs(n, v)
    ensures Joined(langs, n + 1, u + (s + v))
  {
    var w, i, j := u + (s + v), |u|, |u| + |s|;
    assert w[..i] == u && w[i..j] == s && w[j..] == v;
    assert JoinedAt(langs, n + 1, w, i, j);
  }

  lemma JoinedLess(langs: Langs, n: nat, w: string) returns (u: string, s: string, v: string)
    requires n >= 2 && Joined(langs, n, w)
    ensures w == u + (s + v) && Joined(langs, n - 1, u) && IsSep(s) && langs(n - 1, v)
  {
    var i: nat, j: nat :| JoinedAt(langs, n, w, i, j);
    u, s, v := w[..i], w[i..j], w[j..];
  }

  lemma {:induction false} JoinLang(rss: seq<seq<Regex>>, langs: Langs, n: nat, w: string)
    requires 1 <= n <= |rss| && forall i :: 0 <= i < n ==> Denotes(rss[i], langs, i)
    ensures InSeq(JoinRs(rss, n), w) <==> Joined(langs, n, w)
    decreases n
  {
    if n > 1 {
      if InSeq(JoinRs(rss, n), w) {
        var u, x := InSeqSplit(JoinRs(rss, n - 1), SEP_RS + rss[n - 1], w);
        var s, v := InSeqSplit(SEP_RS, rss[n - 1], x);
        JoinLang(rss, langs, n - 1, u);
        SepLang(s);
        JoinedMore(langs, n - 1, u, s, v);
      }
      if Joined(langs, n, w) {
        var u, s, v := JoinedLess(langs, n, w);
        JoinLang(rss, langs, n - 1, u);
        SepLang(s);
        InSeqJoin(SEP_RS, s, rss[n - 1], v);
        InSeqJoin(JoinRs(rss, n - 1), u, SEP_RS + rss[n - 1], s + v);
      }
    }
  }

  /** All elements have the same language. */
  ghost predicate Uniform(langs: Langs) {
    forall i: nat, w :: langs(i, w) <==> langs(0, w)
  }

  lemma {:induction false} FlattenLast(ws: seq<string>, w: string)
    ensures Flatten(ws + [w]) == Flatten(ws) + w
  {
    FlattenConcat(ws, [w]);
    assert Flatten([w]) == w + Flatten([w][1..]) == w;
  }

  /** A separated element. */
  lemma MoreSplit(rs: seq<Regex>, langs: Langs, w: string) returns (s: string, v: string)
    requires Denotes(rs, langs, 0) && In(Cat(SEP_RS + rs), w)
    ensures w == s + v && IsSep(s) && langs(0, v)
  {
    InCat(SEP_RS + rs, w);
    s, v := InSeqSplit(SEP_RS, rs, w);
    SepLang(s);
  }

  lemma {:induction false} MoreJoin(rs: seq<Regex>, langs: Langs, s: string, v: string)
    requires Denotes(rs, langs, 0) && IsSep(s) && langs(0, v)
    ensures In(Cat(SEP_RS + rs), s + v)
  {
    SepLang(s);
    InSeqJoin(SEP_RS, s, rs, v);
    InCat(SEP_RS + rs, s + v);
  }

  /** Separated elements after a list make it longer. */
  lemma {:induction false} MoreJoined(rs: seq<Regex>, langs: Langs, n: nat, u: string, ws: seq<string>)
    requires Denotes(rs, langs, 0) && Uniform(langs) && n >= 1 && Joined(langs, n, u)
    requires forall i :: 0 <= i < |ws| ==> In(Cat(SEP_RS + rs), ws[i])
    ensures Joined(langs, n + |ws|, u + Flatten(ws))
    decreases |ws|
  {
    if ws == [] {
      assert u + Flatten(ws) == u;
    } else {
      var m := |ws| - 1;
      var init, w := ws[..m], ws[m];
      assert ws == init + [w];
      MoreJoined(rs, langs, n, u, init);
      FlattenLast(init, w);
      var s, v := MoreSplit(rs, langs, w);
      JoinedMore(langs, n + m, u + Flatten(init), s, v);
      Assoc(u, Flatten(init), w);
    }
  }

  /** A long list is one of n elements and separated further ones. */
  lemma {:induction false} JoinedSplits(rs: seq<Regex>, langs: Langs, n: nat, m: nat, w: string) returns (u: string, ws: seq<string>)
    requires Denotes(rs, langs, 0) && Uniform(langs) && 1 <= n <= m && Joined(langs, m, w)
    ensures w == u + Flatten(ws) && Joined(langs, n, u)
    ensures forall i :: 0 <= i < |ws| ==> In(Cat(SEP_RS + rs), ws[i])
    decreases m
  {
    if m == n {
      u, ws := w, [];
      assert u + Flatten(ws) == w;
    } else {
      var init, s, v := JoinedLess(langs, m, w);
      u, ws := JoinedSplits(rs, langs, n, m - 1, init);
      MoreJoin(rs, langs, s, v);
      FlattenLast(ws, s + v);
      Assoc(u, Flatten(ws), s + v);
      ws := ws + [s + v];
    }
  }

  /** At least n elements. */
  ghost predicate JoinedFrom(langs: Langs, n: nat, w: string) {
    exists m: nat :: n <= m && Joined(langs, m, w)
  }

  lemma StarWords(r: Regex, w: string) returns (ws: seq<string>)
    requires InSeq([Star(r)], w)
    ensures Flatten(ws) == w && forall i :: 0 <= i < |ws| ==> In(r, ws[i])
  {
    InSeqOne(Star(r), w);
    ws :| Flatten(ws) == w && forall i :: 0 <= i < |ws| ==> In(r, ws[i]);
  }

  lemma {:induction false} StarOf(r: Regex, ws: seq<string>)
    requires forall i :: 0 <= i < |ws| ==> In(r, ws[i])
    ensures InSeq([Star(r)], Flatten(ws))
  {
    InSeqOne(Star(r), Flatten(ws));
  }

  lemma {:induction false} MoreLang(a: seq<Regex>, rs: seq<Regex>, langs: Langs, n: nat, w: string)
    requires n >= 1 && Denotes(rs, langs, 0) && Uniform(langs) && forall u :: InSeq(a, u) <==> Joined(langs, n, u)
    ensures InSeq(a + [MoreR(rs)], w) <==> JoinedFrom(langs, n, w)
  {
    if InSeq(a + [MoreR(rs)], w) {
      var u, v := InSeqSplit(a, [MoreR(rs)], w);
      var ws := StarWords(Cat(SEP_RS + rs), v);
      MoreJoined(rs, langs, n, u, ws);
    }
    if JoinedFrom(langs, n, w) {
      var m: nat :| n <= m && Joined(langs, m, w);
      var u, ws := JoinedSplits(rs, langs, n, m, w);
      StarOf(Cat(SEP_RS + rs), ws);
      InSeqJoin(a, u, [MoreR(rs)], Flatten(ws));
    }
  }

  lemma ListLang(rs: seq<Regex>, langs: Langs, w: string)
    requires Denotes(rs, langs, 0) && Uniform(langs)
    ensures InSeq([ListR(rs)], w) <==> w == "" || JoinedFrom(langs, 1, w)
  {
    InSeqOne(ListR(rs), w);
    InCat(rs + [MoreR(rs)], w);
    MoreLang(rs, rs, langs, 1, w);
  }

  // ---------------------------------------------------------------- brackets and members

  lemma SpSplit(rs: seq<Regex>, w: string) returns (s: string, v: string)
    requires InSeq(SP_RS + rs, w)
    ensures w == s + v && IsSpace(s) && InSeq(rs, v)
  {
    s, v := InSeqSplit(SP_RS, rs, w);
    SpLang(s);
  }

  lemma SpJoin(s: string, rs: seq<Regex>, v: string)
    requires IsSpace(s) && InSeq(rs, v)
    ensures InSeq(SP_RS + rs, s + v)
  {
    SpLang(s);
    InSeqJoin(SP_RS, s, rs, v);
  }

  lemma ChrSplit(c: char, rs: seq<Regex>, w: string) returns (v: string)
    requires InSeq([Chr(c)] + rs, w)
    ensures w == [c] + v && InSeq(rs, v)
  {
    var u;
    u, v := InSeqSplit([Chr(c)], rs, w);
    InSeqOne(Chr(c), u);
  }

  lemma ChrJoin(c: char, rs: seq<Regex>, v: string)
    requires InSeq(rs, v)
    ensures InSeq([Chr(c)] + rs, [c] + v)
  {
    InSeqOne(Chr(c), [c]);
    InSeqJoin([Chr(c)], [c], rs, v);
  }

  lemma BracketMake(open: char, close: char, inner: string -> bool, s: string, b: string, t: string)
    requires IsSpace(s) && inner(b) && IsSpace(t)
    ensures Bracketed(open, close, inner, [open] + (s + (b + (t + [close]))))
  {
    var w, i, j := [open] + (s + (b + (t + [close]))), 1 + |s|, 1 + |s| + |b|;
    assert w[1..i] == s && w[i..j] == b && w[j..|w| - 1] == t;
    assert BracketedAt(open, close, inner, w, i, j);
  }

  lemma BracketTake(open: char, close: char, inner: string -> bool, w: string) returns (s: string, b: string, t: string)
    requires Bracketed(open, close, inner, w)
    ensures w == [open] + (s + (b + (t + [close]))) && IsSpace(s) && inner(b) && IsSpace(t)
  {
    var i: nat, j: nat :| BracketedAt(open, close, inner, w, i, j);
    s, b, t := w[1..i], w[i..j], w[j..|w| - 1];
  }

  /** What a list of pieces matches, as a language. */
  ghost predicate Matches(rs: seq<Regex>, lang: string -> bool) {
    forall u :: InSeq(rs, u) <==> lang(u)
  }

  lemma BracketLang(open: char, rs: seq<Regex>, close: char, inner: string -> bool, w: string)
    requires Matches(rs, inner)
    ensures InSeq(BracketRs(open, rs, close), w) <==> Bracketed(open, close, inner, w)
  {
    var tail := SP_RS + [Chr(close)];
    if InSeq(BracketRs(open, rs, close), w) {
      var v := ChrSplit(open, SP_RS + (rs + tail), w);
      var s, x := SpSplit(rs + tail, v);
      var b, y := InSeqSplit(rs, tail, x);
      var t, z := SpSplit([Chr(close)], y);
      InSeqOne(Chr(close), z);
      BracketMake(open, close, inner, s, b, t);
    }
    if Bracketed(open, close, inner, w) {
      var s, b, t := BracketTake(open, close, inner, w);
      InSeqOne(Chr(close), [close]);
      SpJoin(t, [Chr(close)], [close]);
      InSeqJoin(rs, b, tail, t + [close]);
      SpJoin(s, rs + tail, b + (t + [close]));
      ChrJoin(open, SP_RS + (rs + tail), s + (b + (t + [close])));
    }
  }

  lemma MemberMake(key: string -> bool, value: string -> bool, k: string, s: string, t: string, v: string)
    requires key(k) && IsSpace(s) && IsSpace(t) && value(v)
    ensures Member(key, value, k + (s + (":" + (t + v))))
  {
    var w, i, c := k + (s + (":" + (t + v))), |k|, |k| + |s|;
    var j := c + 1 + |t|;
    assert w[..i] == k && w[i..c] == s && w[c] == ':' && w[c + 1..j] == t && w[j..] == v;
    assert MemberAt(key, value, w, i, c, j);
  }

  lemma MemberTake(key: string -> bool, value: string -> bool, w: string) returns (k: string, s: string, t: string, v: string)
    requires Member(key, value, w)
    ensures w == k + (s + (":" + (t + v))) && key(k) && IsSpace(s) && IsSpace(t) && value(v)
  {
    var i: nat, c: nat, j: nat :| MemberAt(key, value, w, i, c, j);
    k, s, t, v := w[..i], w[i..c], w[c + 1..j], w[j..];
  }

  lemma MemberLang(krs: seq<Regex>, key: string -> bool, vrs: seq<Regex>, value: string -> bool, w: string)
    requires Matches(krs, key) && Matches(vrs, value)
    ensures InSeq(MemberRs(krs, vrs), w) <==> Member(key, value, w)
  {
    var tail := [Chr(':')] + (SP_RS + vrs);
    if InSeq(MemberRs(krs, vrs), w) {
      var k, x := InSeqSplit(krs, SP_RS + tail, w);
      var s, y := SpSplit(tail, x);
      var z := ChrSplit(':', SP_RS + vrs, y);
      var t, v := SpSplit(vrs, z);
      MemberMake(key, value, k, s, t, v);
    }
    if Member(key, value, w) {
      var k, s, t, v := MemberTake(key, value, w);
      SpJoin(t, vrs, v);
      ChrJoin(':', SP_RS + vrs, t + v);
      SpJoin(s, tail, ":" + (t + v));
      InSeqJoin(krs, k, SP_RS + tail, s + (":" + (t + v)));
    }
  }
}
