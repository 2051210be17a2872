/** The token pieces match exactly the tokens. */
module JsonTokenTexts {
  import opened Wrappers
  import opened Regex
  import opened JsonTokens

  // ---------------------------------------------------------------- one piece, then the rest

  ghost predicate HeadSplit(r: Regex, rs: seq<Regex>, w: string, k: nat) {
    k <= |w| && In(r, w[..k]) && InSeq(rs, w[k..])
  }

  lemma HeadThen(r: Regex, rs: seq<Regex>, w: string)
    ensures InSeq([r] + rs, w) <==> exists k: nat :: HeadSplit(r, rs, w, k)
  {
    InSeqConcat([r], rs, w);
    if k: nat :| SplitsAt([r], rs, w, k) {
      InSeqOne(r, w[..k]);
      assert HeadSplit(r, rs, w, k);
    }
    if k: nat :| HeadSplit(r, rs, w, k) {
      InSeqOne(r, w[..k]);
      assert SplitsAt([r], rs, w, k);
    }
  }

  /** r matches single characters only. */
  ghost predicate Single(r: Regex) {
    forall w :: In(r, w) ==> |w| == 1
  }

  lemma {:induction false} SingleThen(r: Regex, rs: seq<Regex>, w: string)
    requires Single(r)
    ensures InSeq([r] + rs, w) <==> w != "" && In(r, [w[0]]) && InSeq(rs, w[1..])
  {
    HeadThen(r, rs, w);
    if k: nat :| HeadSplit(r, rs, w, k) {
      assert |w[..k]| == 1;
      assert w[..k] == [w[0]];
    }
    if w != "" && In(r, [w[0]]) && InSeq(rs, w[1..]) {
      assert w[..1] == [w[0]];
      assert HeadSplit(r, rs, w, 1);
    }
  }

  lemma OptThen(r: Regex, rs: seq<Regex>, w: string)
    ensures InSeq([Opt(r)] + rs, w) <==> InSeq(rs, w) || exists k: nat :: HeadSplit(r, rs, w, k)
  {
    HeadThen(Opt(r), rs, w);
    if InSeq(rs, w) {
      assert w[..0] == "" && w[0..] == w;
      assert HeadSplit(Opt(r), rs, w, 0);
    }
    if k: nat :| HeadSplit(r, rs, w, k) {
      assert HeadSplit(Opt(r), rs, w, k);
    }
    if k: nat :| HeadSplit(Opt(r), rs, w, k) {
      assert w[..k] == "" ==> w[k..] == w;
      assert In(r, w[..k]) ==> HeadSplit(r, rs, w, k);
    }
  }

  lemma {:induction false} InPair(a: seq<Regex>, b: seq<Regex>, w: string)
    ensures In(Alt([Cat(a), Cat(b)]), w) <==> InSeq(a, w) || InSeq(b, w)
  {
    var alts := [Cat(a), Cat(b)];
    InCat(a, w);
    InCat(b, w);
    assert In(alts[0], w) || In(alts[1], w) ==> In(Alt(alts), w);
  }

  // ---------------------------------------------------------------- repeated single characters

  function Letters(w: string): (ws: seq<string>)
    ensures |ws| == |w| && forall i :: 0 <= i < |w| ==> ws[i] == [w[i]]
  {
    seq(|w|, i requires 0 <= i < |w| => [w[i]])
  }

  lemma {:induction false} FlattenLetters(w: string)
    ensures Flatten(Letters(w)) == w
  {
    if w != "" {
      assert Letters(w)[1..] == Letters(w[1..]);
      FlattenLetters(w[1..]);
    }
  }

  lemma {:induction false} FlattenOnes(ws: seq<string>)
    requires forall i :: 0 <= i < |ws| ==> |ws[i]| == 1
    ensures ws == Letters(Flatten(ws))
  {
    if ws != [] {
      FlattenOnes(ws[1..]);
      var w := Flatten(ws);
      assert ws[0] == [w[0]] && w[1..] == Flatten(ws[1..]);
      assert ws == [ws[0]] + ws[1..];
      assert Letters(w) == [[w[0]]] + Letters(w[1..]);
    }
  }

  /** Every character of w matches r. */
  ghost predicate Each(r: Regex, w: string) {
    forall i :: 0 <= i < |w| ==> In(r, [w[i]])
  }

  lemma {:induction false} OnesEach(r: Regex, ws: seq<string>)
    requires Single(r) && forall i :: 0 <= i < |ws| ==> In(r, ws[i])
    ensures |ws| == |Flatten(ws)| && Each(r, Flatten(ws))
  {
    FlattenOnes(ws);
  }

  lemma {:induction false} RepeatSingle(r: Regex, w: string)
    requires Single(r)
    ensures In(Star(r), w) <==> Each(r, w)
    ensures In(Plus(r), w) <==> w != "" && Each(r, w)
  {
    FlattenLetters(w);
    if In(Star(r), w) {
      var ws: seq<string> :| Flatten(ws) == w && forall i :: 0 <= i < |ws| ==> In(r, ws[i]);
      OnesEach(r, ws);
    }
    if In(Plus(r), w) {
      var ws: seq<string> :| |ws| >= 1 && Flatten(ws) == w && forall i :: 0 <= i < |ws| ==> In(r, ws[i]);
      OnesEach(r, ws);
    }
    if Each(r, w) {
      assert forall i :: 0 <= i < |Letters(w)| ==> In(r, Letters(w)[i]);
    }
  }

  lemma {:induction false} RepeatTimes(r: Regex, n: nat, w: string)
    requires Single(r)
    ensures In(Times(r, n), w) <==> |w| == n && Each(r, w)
  {
    FlattenLetters(w);
    if In(Times(r, n), w) {
      var ws: seq<string> :| |ws| == n && Flatten(ws) == w && forall i :: 0 <= i < |ws| ==> In(r, ws[i]);
      OnesEach(r, ws);
    }
    if Each(r, w) {
      assert forall i :: 0 <= i < |Letters(w)| ==> In(r, Letters(w)[i]);
    }
  }

  lemma DigitLang()
    ensures Single(DIGIT) && Single(HEX) && Single(PLAIN) && Single(SHORT)
    ensures forall c: char :: In(DIGIT, [c]) <==> IsDigit(c)
    ensures forall c: char :: In(HEX, [c]) <==> IsHex(c)
    ensures forall c: char :: In(PLAIN, [c]) <==> c != '"' && c != '\\'
    ensures forall c: char :: In(SHORT, [c]) <==> c in "\"\\/bfnrt"
  {
    forall c: char ensures In(DIGIT, [c]) <==> IsDigit(c) {
      RangesOne('0', '9', c);
    }
    forall c: char ensures In(HEX, [c]) <==> IsHex(c) {
      assert IsHex(c) ==> HEX.ranges[0].0 <= c <= HEX.ranges[0].1 || HEX.ranges[1].0 <= c <= HEX.ranges[1].1
                          || HEX.ranges[2].0 <= c <= HEX.ranges[2].1;
    }
    forall c: char ensures In(PLAIN, [c]) <==> c != '"' && c != '\\' {
      assert c == '"' || c == '\\' ==> PLAIN.ranges[0].0 <= c <= PLAIN.ranges[0].1 || PLAIN.ranges[1].0 <= c <= PLAIN.ranges[1].1;
    }
    forall c: char ensures In(SHORT, [c]) <==> c in "\"\\/bfnrt" {
      ShortMembers(c);
    }
  }

  lemma RangesOne(a: char, b: char, c: char)
    ensures InRanges([(a, b)], c) <==> a <= c <= b
  {
    assert a <= c <= b ==> [(a, b)][0].0 <= c <= [(a, b)][0].1;
  }

  lemma SinglesMembers(cs: string, c: char)
    ensures InRanges(Singles(cs), c) <==> c in cs
  {
    if c in cs {
      var i :| 0 <= i < |cs| && cs[i] == c;
      assert Singles(cs)[i].0 <= c <= Singles(cs)[i].1;
    }
    if InRanges(Singles(cs), c) {
      var i :| 0 <= i < |Singles(cs)| && Singles(cs)[i].0 <= c <= Singles(cs)[i].1;
      assert cs[i] == c;
    }
  }

  lemma ShortMembers(c: char)
    ensures InRanges(SHORT.ranges, c) <==> c in "\"\\/bfnrt"
  {
    assert SHORT.ranges == Singles("\"\\/bfnrt");
    SinglesMembers("\"\\/bfnrt", c);
  }

  lemma {:induction false} DigitsLang(w: string)
    ensures In(Star(DIGIT), w) <==> Digits(w)
    ensures In(Plus(DIGIT), w) <==> w != "" && Digits(w)
  {
    DigitLang();
    RepeatSingle(DIGIT, w);
  }

  // ---------------------------------------------------------------- strings

  /** One character or escape of a string body. */
  predicate IsUnit(u: string) {
    || (|u| == 1 && u[0] != '"' && u[0] != '\\')
    || (|u| == 2 && u[0] == '\\' && u[1] in "\"\\/bfnrt")
    || (|u| == 6 && u[0] == '\\' && u[1] == 'u' && HexRun(u[2..]))
  }

  lemma {:induction false} HexLang(w: string)
    ensures In(Times(HEX, 4), w) <==> |w| == 4 && HexRun(w)
  {
    DigitLang();
    RepeatTimes(HEX, 4, w);
  }

  /** What may follow the backslash. */
  predicate IsEscape(w: string) {
    (|w| == 1 && w[0] in "\"\\/bfnrt") || (|w| == 5 && w[0] == 'u' && HexRun(w[1..]))
  }

  lemma HexTail(w: string)
    ensures InSeq([Chr('u'), Times(HEX, 4)], w) <==> |w| == 5 && w[0] == 'u' && HexRun(w[1..])
  {
    SingleThen(Chr('u'), [Times(HEX, 4)], w);
    assert [Chr('u')] + [Times(HEX, 4)] == [Chr('u'), Times(HEX, 4)];
    if w != "" {
      InSeqOne(Times(HEX, 4), w[1..]);
      HexLang(w[1..]);
    }
  }

  lemma {:induction false} EscapeLang(w: string)
    ensures In(Alt([Cat([SHORT]), Cat([Chr('u'), Times(HEX, 4)])]), w) <==> IsEscape(w)
  {
    InPair([SHORT], [Chr('u'), Times(HEX, 4)], w);
    InSeqOne(SHORT, w);
    DigitLang();
    assert |w| == 1 ==> w == [w[0]];
    HexTail(w);
  }

  lemma EscapedLang(w: string)
    ensures InSeq([Chr('\\'), Alt([Cat([SHORT]), Cat([Chr('u'), Times(HEX, 4)])])], w)
            <==> w != "" && w[0] == '\\' && IsEscape(w[1..])
  {
    var e := Alt([Cat([SHORT]), Cat([Chr('u'), Times(HEX, 4)])]);
    SingleThen(Chr('\\'), [e], w);
    assert [Chr('\\')] + [e] == [Chr('\\'), e];
    if w != "" {
      InSeqOne(e, w[1..]);
      EscapeLang(w[1..]);
    }
  }

  lemma {:induction false} UnitLang(w: string)
    ensures In(UNIT, w) <==> IsUnit(w)
  {
    var e := Alt([Cat([SHORT]), Cat([Chr('u'), Times(HEX, 4)])]);
    InPair([PLAIN], [Chr('\\'), e], w);
    InSeqOne(PLAIN, w);
    DigitLang();
    assert |w| == 1 ==> w == [w[0]];
    EscapedLang(w);
    UnitIs(w);
  }

  lemma UnitIs(w: string)
    ensures IsUnit(w) <==> (|w| == 1 && w[0] != '"' && w[0] != '\\') || (w != "" && w[0] == '\\' && IsEscape(w[1..]))
  {
    if |w| == 6 {
      assert w[1..][1..] == w[2..];
    }
  }

  lemma {:induction false} BodyCons(u: string, rest: string)
    requires IsUnit(u) && IsBody(rest)
    ensures IsBody(u + rest)
  {
    assert (u + rest)[|u|..] == rest;
    if |u| == 6 {
      assert (u + rest)[2..6] == u[2..];
    }
  }

  lemma {:induction false} UnitsAreBody(ws: seq<string>)
    requires forall i :: 0 <= i < |ws| ==> IsUnit(ws[i])
    ensures IsBody(Flatten(ws))
  {
    if ws != [] {
      UnitsAreBody(ws[1..]);
      BodyCons(ws[0], Flatten(ws[1..]));
    }
  }

  lemma {:induction false} BodyIsUnits(w: string) returns (ws: seq<string>)
    requires IsBody(w)
    ensures Flatten(ws) == w && forall i :: 0 <= i < |ws| ==> IsUnit(ws[i])
    decreases |w|
  {
    if w == "" {
      ws := [];
    } else {
      var n := if w[0] != '"' && w[0] != '\\' then 1
               else if |w| >= 2 && w[1] in "\"\\/bfnrt" && IsBody(w[2..]) then 2 else 6;
      var rest := BodyIsUnits(w[n..]);
      ws := [w[..n]] + rest;
      assert ws[1..] == rest;
      assert w == w[..n] + w[n..];
      assert n == 6 ==> w[..n][2..] == w[2..6];
    }
  }

  lemma {:induction false} BodyLang(w: string)
    ensures In(Star(UNIT), w) <==> IsBody(w)
  {
    if In(Star(UNIT), w) {
      var ws: seq<string> :| Flatten(ws) == w && forall i :: 0 <= i < |ws| ==> In(UNIT, ws[i]);
      forall i | 0 <= i < |ws| ensures IsUnit(ws[i]) {
        UnitLang(ws[i]);
      }
      UnitsAreBody(ws);
    }
    if IsBody(w) {
      var ws := BodyIsUnits(w);
      forall i | 0 <= i < |ws| ensures In(UNIT, ws[i]) {
        UnitLang(ws[i]);
      }
    }
  }

  lemma QuoteSplit(v: string, k: nat)
    ensures HeadSplit(Star(UNIT), [Chr('"')], v, k) <==> |v| == k + 1 && v[k] == '"' && IsBody(v[..k])
  {
    if k <= |v| {
      BodyLang(v[..k]);
      InSeqOne(Chr('"'), v[k..]);
      assert |v| == k + 1 ==> v[k..] == [v[k]];
    }
  }

  lemma QuotedTail(v: string)
    ensures InSeq([Star(UNIT), Chr('"')], v) <==> v != "" && v[|v| - 1] == '"' && IsBody(v[..|v| - 1])
  {
    assert [Star(UNIT), Chr('"')] == [Star(UNIT)] + [Chr('"')];
    HeadThen(Star(UNIT), [Chr('"')], v);
    if k: nat :| HeadSplit(Star(UNIT), [Chr('"')], v, k) {
      QuoteSplit(v, k);
    }
    if v != "" {
      QuoteSplit(v, |v| - 1);
    }
  }

  lemma StringLang(w: string)
    ensures InSeq(STRING_RS, w) <==> IsString(w)
  {
    assert STRING_RS == [Chr('"')] + [Star(UNIT), Chr('"')];
    SingleThen(Chr('"'), [Star(UNIT), Chr('"')], w);
    if w != "" {
      QuotedTail(w[1..]);
      assert |w| >= 2 ==> w[1..][..|w| - 2] == w[1..|w| - 1];
    }
  }

  // ---------------------------------------------------------------- numbers

  lemma {:induction false} IntPartLang(w: string)
    ensures In(INTEGER_RS[1], w) <==> IsIntPart(w)
  {
    var lead := Class(false, [('1', '9')]);
    InPair([Chr('0')], [lead, Star(DIGIT)], w);
    InSeqOne(Chr('0'), w);
    assert [lead, Star(DIGIT)] == [lead] + [Star(DIGIT)];
    SingleThen(lead, [Star(DIGIT)], w);
    if w != "" {
      RangesOne('1', '9', w[0]);
      InSeqOne(Star(DIGIT), w[1..]);
      DigitsLang(w[1..]);
    }
  }

  lemma IntegerLang(w: string)
    ensures InSeq(INTEGER_RS, w) <==> IsInteger(w)
  {
    var n := INTEGER_RS[1];
    assert INTEGER_RS == [Opt(Chr('-'))] + [n];
    OptThen(Chr('-'), [n], w);
    InSeqOne(n, w);
    IntPartLang(w);
    if w != "" {
      InSeqOne(n, w[1..]);
      IntPartLang(w[1..]);
      assert w[0] == '-' && IsIntPart(w[1..]) ==> w[..1] == "-" && HeadSplit(Chr('-'), [n], w, 1);
    }
    if k: nat :| HeadSplit(Chr('-'), [n], w, k) {
      assert |w[..k]| == 1 && w[0] == w[..k][0];
    }
  }

  lemma {:induction false} FracLang(w: string)
    ensures In(FRAC_R, w) <==> IsFrac(w)
  {
    var rs := [Chr('.'), Plus(DIGIT)];
    InCat(rs, w);
    assert rs == [Chr('.')] + [Plus(DIGIT)];
    SingleThen(Chr('.'), [Plus(DIGIT)], w);
    if w != "" {
      InSeqOne(Plus(DIGIT), w[1..]);
      DigitsLang(w[1..]);
    }
  }

  lemma SignedLang(w: string)
    ensures InSeq([Opt(Class(false, [('+', '+'), ('-', '-')])), Plus(DIGIT)], w) <==> IsSigned(w)
  {
    var sign := Class(false, [('+', '+'), ('-', '-')]);
    assert [Opt(sign), Plus(DIGIT)] == [Opt(sign)] + [Plus(DIGIT)];
    OptThen(sign, [Plus(DIGIT)], w);
    InSeqOne(Plus(DIGIT), w);
    DigitsLang(w);
    forall k: nat | k <= |w| ensures HeadSplit(sign, [Plus(DIGIT)], w, k) <==> k == 1 && w[0] in "+-" && |w| >= 2 && Digits(w[1..]) {
      InSeqOne(Plus(DIGIT), w[k..]);
      DigitsLang(w[k..]);
      if k == 1 {
        assert w[..1] == [w[0]];
        SignMembers(w[0]);
      }
    }
    if w != "" && w[0] in "+-" && |w| >= 2 && Digits(w[1..]) {
      assert HeadSplit(sign, [Plus(DIGIT)], w, 1);
    }
  }

  lemma SignMembers(c: char)
    ensures InRanges([('+', '+'), ('-', '-')], c) <==> c in "+-"
  {
    var r := [('+', '+'), ('-', '-')];
    assert c in "+-" ==> r[0].0 <= c <= r[0].1 || r[1].0 <= c <= r[1].1;
  }

  lemma ExpMembers(c: char)
    ensures InRanges([('e', 'e'), ('E', 'E')], c) <==> c in "eE"
  {
    var r := [('e', 'e'), ('E', 'E')];
    assert c in "eE" ==> r[0].0 <= c <= r[0].1 || r[1].0 <= c <= r[1].1;
  }

  lemma {:induction false} ExpLang(w: string)
    ensures In(EXP_R, w) <==> IsExp(w)
  {
    var e := Class(false, [('e', 'e'), ('E', 'E')]);
    var tail := [Opt(Class(false, [('+', '+'), ('-', '-')])), Plus(DIGIT)];
    InCat([e] + tail, w);
    assert EXP_R == Opt(Cat([e] + tail));
    SingleThen(e, tail, w);
    if w != "" {
      ExpMembers(w[0]);
      SignedLang(w[1..]);
    }
  }

  lemma NumberLang(w: string)
    ensures InSeq(NUMBER_RS, w) <==> IsNumber(w)
  {
    InSeqConcat(INTEGER_RS, [FRAC_R, EXP_R], w);
    assert [FRAC_R, EXP_R] == [FRAC_R] + [EXP_R];
    if i: nat :| SplitsAt(INTEGER_RS, [FRAC_R, EXP_R], w, i) {
      IntegerLang(w[..i]);
      var v := w[i..];
      HeadThen(FRAC_R, [EXP_R], v);
      var k: nat :| HeadSplit(FRAC_R, [EXP_R], v, k);
      InSeqOne(EXP_R, v[k..]);
      FracLang(v[..k]);
      ExpLang(v[k..]);
      assert v[..k] == w[i..i + k] && v[k..] == w[i + k..];
      assert NumberSplits(w, i, i + k);
    }
    if i: nat, j: nat :| NumberSplits(w, i, j) {
      IntegerLang(w[..i]);
      var v := w[i..];
      assert v[..j - i] == w[i..j] && v[j - i..] == w[j..];
      FracLang(v[..j - i]);
      ExpLang(v[j - i..]);
      InSeqOne(EXP_R, v[j - i..]);
      assert HeadSplit(FRAC_R, [EXP_R], v, j - i);
      HeadThen(FRAC_R, [EXP_R], v);
      assert SplitsAt(INTEGER_RS, [FRAC_R, EXP_R], w, i);
    }
  }

  lemma BoolLang(w: string)
    ensures InSeq(BOOL_RS, w) <==> w == "true" || w == "false"
  {
    InSeqOne(BOOL_RS[0], w);
    InPair(Chars("true"), Chars("false"), w);
    InChars("true", w);
    InChars("false", w);
  }

  lemma SpLang(w: string)
    ensures InSeq(SP_RS, w) <==> IsSpace(w)
  {
    InSeqOne(Opt(Chr(' ')), w);
  }
}
