/**
 The token patterns of the schema compiler: strings, numbers, literals and optional spaces, each as
 pattern text, as pieces, and as the set of texts it matches.
 */
module JsonTokens {
  import opened Wrappers
  import opened Regex

  const SHORTS: string := "[\"\\\\/bfnrt]"
  const HEXES: string := "[0-9a-fA-F]"
  const ESCAPES: string := "(" + (SHORTS + "|" + ("u" + (HEXES + "{4}"))) + ")"
  const UNITS: string := "(" + ("[^\"\\\\]" + "|" + ("\\\\" + ESCAPES)) + ")" + "*"
  const STRING: string := "\"" + (UNITS + "\"")
  const NATURAL: string := "(" + ("0" + "|" + ("[1-9]" + ("[0-9]" + "*"))) + ")"
  const INTEGER: string := ("-" + "?") + NATURAL
  const FRAC: string := "(" + ("\\." + ("[0-9]" + "+")) + ")" + "?"
  const EXP: string := "(" + ("[eE]" + (("[+-]" + "?") + ("[0-9]" + "+"))) + ")" + "?"
  const NUMBER: string := INTEGER + (FRAC + EXP)
  const BOOL: string := "(" + ("true" + "|" + "false") + ")"
  const NULL: string := "null"
  const SP: string := " ?"

  // ---------------------------------------------------------------- what the tokens are

  predicate IsDigit(c: char) {
    '0' <= c <= '9'
  }

  predicate IsHex(c: char) {
    '0' <= c <= '9' || 'a' <= c <= 'f' || 'A' <= c <= 'F'
  }

  predicate Digits(w: string) {
    forall i :: 0 <= i < |w| ==> IsDigit(w[i])
  }

  /** RFC 8259 section 6: int. */
  predicate IsIntPart(w: string) {
    w == "0" || (w != "" && '1' <= w[0] <= '9' && Digits(w[1..]))
  }

  predicate IsInteger(w: string) {
    IsIntPart(w) || (w != "" && w[0] == '-' && IsIntPart(w[1..]))
  }

  /** An optional fraction. */
  predicate IsFrac(w: string) {
    w == "" || (|w| >= 2 && w[0] == '.' && Digits(w[1..]))
  }

  /** An optional exponent. */
  predicate IsExp(w: string) {
    w == "" || (|w| >= 2 && w[0] in "eE" && IsSigned(w[1..]))
  }

  predicate IsSigned(w: string) {
    (w != "" && Digits(w)) || (|w| >= 2 && w[0] in "+-" && Digits(w[1..]))
  }

  /** RFC 8259 section 6: number. */
  ghost predicate IsNumber(w: string) {
    exists i: nat, j: nat :: NumberSplits(w, i, j)
  }

  predicate NumberSplits(w: string, i: nat, j: nat) {
    i <= j <= |w| && IsInteger(w[..i]) && IsFrac(w[i..j]) && IsExp(w[j..])
  }

  /** The inside of a string token: plain characters, short escapes and four-digit escapes. */
  predicate IsBody(w: string)
    decreases |w|
  {
    || w == ""
    || (w[0] != '"' && w[0] != '\\' && IsBody(w[1..]))
    || (|w| >= 2 && w[0] == '\\' && w[1] in "\"\\/bfnrt" && IsBody(w[2..]))
    || (|w| >= 6 && w[0] == '\\' && w[1] == 'u' && HexRun(w[2..6]) && IsBody(w[6..]))
  }

  predicate HexRun(w: string) {
    forall i :: 0 <= i < |w| ==> IsHex(w[i])
  }

  predicate IsString(w: string) {
    |w| >= 2 && w[0] == '"' && w[|w| - 1] == '"' && IsBody(w[1..|w| - 1])
  }

  predicate IsSpace(w: string) {
    w == "" || w == " "
  }

  // ---------------------------------------------------------------- the pieces

  const DIGIT: Regex := Class(false, [('0', '9')])
  const HEX: Regex := Class(false, [('0', '9'), ('a', 'f'), ('A', 'F')])
  const PLAIN: Regex := Class(true, [('"', '"'), ('\\', '\\')])
  const SHORT: Regex := Class(false, [('"', '"'), ('\\', '\\'), ('/', '/'), ('b', 'b'), ('f', 'f'), ('n', 'n'), ('r', 'r'), ('t', 't')])
  const UNIT: Regex := Alt([Cat([PLAIN]), Cat([Chr('\\'), Alt([Cat([SHORT]), Cat([Chr('u'), Times(HEX, 4)])])])])
  const STRING_RS: seq<Regex> := [Chr('"'), Star(UNIT), Chr('"')]
  const INTEGER_RS: seq<Regex> := [Opt(Chr('-')), Alt([Cat([Chr('0')]), Cat([Class(false, [('1', '9')]), Star(DIGIT)])])]
  const FRAC_R: Regex := Opt(Cat([Chr('.'), Plus(DIGIT)]))
  const EXP_R: Regex := Opt(Cat([Class(false, [('e', 'e'), ('E', 'E')]), Opt(Class(false, [('+', '+'), ('-', '-')])), Plus(DIGIT)]))
  const NUMBER_RS: seq<Regex> := INTEGER_RS + [FRAC_R, EXP_R]
  const BOOL_RS: seq<Regex> := [Alt([Cat(Chars("true")), Cat(Chars("false"))])]
  const SP_RS: seq<Regex> := [Opt(Chr(' '))]

  // ---------------------------------------------------------------- class texts

  ghost predicate Items(body: string, items: seq<(char, char)>) {
    forall t: string {:trigger ItemsAt(body, items, t)} :: ItemsAt(body, items, t)
  }

  ghost predicate ItemsAt(body: string, items: seq<(char, char)>, t: string) {
    ParseItems(body + ("]" + t)) == Some((items, t))
  }

  lemma ItemsNil()
    ensures Items("", [])
  {
    forall t: string ensures ItemsAt("", [], t) {
      assert "" + ("]" + t) == "]" + t && ("]" + t)[1..] == t;
    }
  }

  /** A plain member in front. */
  lemma ItemsChar(c: char, body: string, items: seq<(char, char)>, whole: string, all: seq<(char, char)>)
    requires Items(body, items) && c !in "]\\[" && (body == "" || body[0] != '-' || body == "-")
    requires whole == [c] + body && all == [(c, c)] + items
    ensures Items(whole, all)
  {
    forall t: string ensures ItemsAt(whole, all, t) {
      var s := whole + ("]" + t);
      assert ItemsAt(body, items, t);
      assert s[0] == c && s[1..] == body + ("]" + t);
      if body == "-" {
        assert s[2] == ']';
      } else {
        assert s[1] == if body == "" then ']' else body[0];
      }
    }
  }

  /** An escaped member in front. */
  lemma ItemsEscaped(c: char, body: string, items: seq<(char, char)>, whole: string, all: seq<(char, char)>)
    requires Items(body, items) && c in META
    requires whole == ['\\', c] + body && all == [(c, c)] + items
    ensures Items(whole, all)
  {
    forall t: string ensures ItemsAt(whole, all, t) {
      var s := whole + ("]" + t);
      assert ItemsAt(body, items, t);
      assert s[0] == '\\' && s[1] == c && s[2..] == body + ("]" + t);
    }
  }

  /** A range in front. */
  lemma ItemsRange(a: char, b: char, body: string, items: seq<(char, char)>, whole: string, all: seq<(char, char)>)
    requires Items(body, items) && a !in "]\\[" && b !in "]\\" && a <= b
    requires whole == [a, '-', b] + body && all == [(a, b)] + items
    ensures Items(whole, all)
  {
    forall t: string ensures ItemsAt(whole, all, t) {
      var s := whole + ("]" + t);
      assert ItemsAt(body, items, t);
      assert s[0] == a && s[1] == '-' && s[2] == b && s[3..] == body + ("]" + t);
    }
  }

  lemma ClassAtom(body: string, items: seq<(char, char)>)
    requires Items(body, items) && items != [] && (body == "" || body[0] != '^')
    ensures IsAtom("[" + body + "]", Class(false, items))
  {
    forall t: string ensures AtomAt("[" + body + "]", Class(false, items), t) {
      var s := "[" + body + "]" + t;
      assert ItemsAt(body, items, t);
      assert s[0] == '[' && s[1..] == body + ("]" + t);
      assert s[1] == if body == "" then ']' else body[0];
    }
  }

  lemma NegatedAtom(body: string, items: seq<(char, char)>)
    requires Items(body, items) && items != []
    ensures IsAtom("[^" + body + "]", Class(true, items))
  {
    forall t: string ensures AtomAt("[^" + body + "]", Class(true, items), t) {
      var s := "[^" + body + "]" + t;
      assert ItemsAt(body, items, t);
      assert s[0] == '[' && s[1] == '^' && s[2..] == body + ("]" + t);
    }
  }

  lemma DigitAtoms()
    ensures IsAtom("[0-9]", DIGIT) && IsAtom("[1-9]", Class(false, [('1', '9')]))
  {
    ItemsNil();
    ItemsRange('0', '9', "", [], "0-9", [('0', '9')]);
    ClassAtom("0-9", [('0', '9')]);
    assert "[" + "0-9" + "]" == "[0-9]";
    ItemsRange('1', '9', "", [], "1-9", [('1', '9')]);
    ClassAtom("1-9", [('1', '9')]);
    assert "[" + "1-9" + "]" == "[1-9]";
  }

  lemma HexAtom()
    ensures IsAtom("[0-9a-fA-F]", HEX)
  {
    ItemsNil();
    ItemsRange('A', 'F', "", [], "A-F", [('A', 'F')]);
    ItemsRange('a', 'f', "A-F", [('A', 'F')], "a-fA-F", [('a', 'f'), ('A', 'F')]);
    ItemsRange('0', '9', "a-fA-F", [('a', 'f'), ('A', 'F')], "0-9a-fA-F", HEX.ranges);
    ClassAtom("0-9a-fA-F", HEX.ranges);
    assert "[" + "0-9a-fA-F" + "]" == "[0-9a-fA-F]";
  }

  lemma PlainAtom()
    ensures IsAtom("[^\"\\\\]", PLAIN)
  {
    ItemsNil();
    ItemsEscaped('\\', "", [], "\\\\", [('\\', '\\')]);
    ItemsChar('"', "\\\\", [('\\', '\\')], "\"\\\\", PLAIN.ranges);
    NegatedAtom("\"\\\\", PLAIN.ranges);
    assert "[^" + "\"\\\\" + "]" == "[^\"\\\\]";
  }

  /** Members that need no care. */
  lemma {:induction false} ItemsPlain(cs: string, n: nat)
    requires n <= |cs| && forall i :: 0 <= i < |cs| ==> cs[i] !in "]\\[-"
    ensures Items(cs[n..], Singles(cs[n..]))
    decreases |cs| - n
  {
    if n == |cs| {
      ItemsNil();
    } else {
      ItemsPlain(cs, n + 1);
      ItemsChar(cs[n], cs[n + 1..], Singles(cs[n + 1..]), cs[n..], Singles(cs[n..]));
    }
  }

  function Singles(cs: string): (items: seq<(char, char)>)
    ensures |items| == |cs| && forall i :: 0 <= i < |cs| ==> items[i] == (cs[i], cs[i])
  {
    seq(|cs|, i requires 0 <= i < |cs| => (cs[i], cs[i]))
  }

  lemma ShortAtom()
    ensures IsAtom("[\"\\\\/bfnrt]", SHORT)
  {
    ItemsPlain("/bfnrt", 0);
    var rest := Singles("/bfnrt");
    ItemsEscaped('\\', "/bfnrt", rest, "\\\\/bfnrt", [('\\', '\\')] + rest);
    ItemsChar('"', "\\\\/bfnrt", [('\\', '\\')] + rest, "\"\\\\/bfnrt", SHORT.ranges);
    ClassAtom("\"\\\\/bfnrt", SHORT.ranges);
    assert "[" + "\"\\\\/bfnrt" + "]" == "[\"\\\\/bfnrt]";
  }

  lemma ExpAtom()
    ensures IsAtom("[eE]", Class(false, [('e', 'e'), ('E', 'E')]))
  {
    ItemsPlain("eE", 0);
    assert Singles("eE") == [('e', 'e'), ('E', 'E')];
    ClassAtom("eE", [('e', 'e'), ('E', 'E')]);
    assert "[" + "eE" + "]" == "[eE]";
  }

  lemma SignAtom()
    ensures IsAtom("[+-]", Class(false, [('+', '+'), ('-', '-')]))
  {
    ItemsNil();
    ItemsChar('-', "", [], "-", [('-', '-')]);
    ItemsChar('+', "-", [('-', '-')], "+-", [('+', '+'), ('-', '-')]);
    ClassAtom("+-", [('+', '+'), ('-', '-')]);
    assert "[" + "+-" + "]" == "[+-]";
  }

  // ---------------------------------------------------------------- the token texts as fragments

  lemma SpFrag()
    ensures Frag(SP, SP_RS)
  {
    FragChar(' ', "?", Opt(Chr(' ')));
    assert EscChar(' ') + "?" == SP;
  }

  lemma EscapesFrag()
    ensures Frag(ESCAPES, [Alt([Cat([SHORT]), Cat([Chr('u'), Times(HEX, 4)])])])
  {
    ShortAtom();
    FragPlain(SHORTS, SHORT);
    HexAtom();
    FragAtom(HEXES, "{4}", HEX, Times(HEX, 4));
    FragLetter('u');
    FragJoin("u", [Chr('u')], HEXES + "{4}", [Times(HEX, 4)], "u" + (HEXES + "{4}"), [Chr('u'), Times(HEX, 4)]);
    FragPair(SHORTS, [SHORT], "u" + (HEXES + "{4}"), [Chr('u'), Times(HEX, 4)], "", Alt([Cat([SHORT]), Cat([Chr('u'), Times(HEX, 4)])]));
  }

  lemma UnitsFrag()
    ensures Frag(UNITS, [Star(UNIT)])
  {
    PlainAtom();
    FragPlain("[^\"\\\\]", PLAIN);
    EscapesFrag();
    FragLetter('\\');
    var group := Alt([Cat([SHORT]), Cat([Chr('u'), Times(HEX, 4)])]);
    FragJoin("\\\\", [Chr('\\')], ESCAPES, [group], "\\\\" + ESCAPES, [Chr('\\'), group]);
    FragPair("[^\"\\\\]", [PLAIN], "\\\\" + ESCAPES, [Chr('\\'), group], "*", Star(UNIT));
  }

  lemma StringFrag()
    ensures Frag(STRING, STRING_RS) && Clean(STRING)
  {
    UnitsFrag();
    FragLetter('"');
    FragJoin(UNITS, [Star(UNIT)], "\"", [Chr('"')], UNITS + "\"", [Star(UNIT), Chr('"')]);
    FragJoin("\"", [Chr('"')], UNITS + "\"", [Star(UNIT), Chr('"')], STRING, STRING_RS);
  }

  lemma NaturalFrag()
    ensures Frag(NATURAL, [Alt([Cat([Chr('0')]), Cat([Class(false, [('1', '9')]), Star(DIGIT)])])])
  {
    DigitAtoms();
    FragAtom("[0-9]", "*", DIGIT, Star(DIGIT));
    var lead := Class(false, [('1', '9')]);
    FragPlain("[1-9]", lead);
    FragJoin("[1-9]", [lead], "[0-9]" + "*", [Star(DIGIT)], "[1-9]" + ("[0-9]" + "*"), [lead, Star(DIGIT)]);
    FragLetter('0');
    FragPair("0", [Chr('0')], "[1-9]" + ("[0-9]" + "*"), [lead, Star(DIGIT)], "", Alt([Cat([Chr('0')]), Cat([lead, Star(DIGIT)])]));
  }

  lemma IntegerFrag()
    ensures Frag(INTEGER, INTEGER_RS) && Clean(INTEGER)
  {
    NaturalFrag();
    FragChar('-', "?", Opt(Chr('-')));
    FragJoin("-" + "?", [Opt(Chr('-'))], NATURAL, [INTEGER_RS[1]], INTEGER, INTEGER_RS);
  }

  lemma FracFrag()
    ensures Frag(FRAC, [FRAC_R]) && Clean(FRAC)
  {
    DigitAtoms();
    FragAtom("[0-9]", "+", DIGIT, Plus(DIGIT));
    FragLetter('.');
    FragJoin("\\.", [Chr('.')], "[0-9]" + "+", [Plus(DIGIT)], "\\." + ("[0-9]" + "+"), [Chr('.'), Plus(DIGIT)]);
    FragSingle("\\." + ("[0-9]" + "+"), [Chr('.'), Plus(DIGIT)], "?", FRAC_R);
  }

  lemma ExpFrag()
    ensures Frag(EXP, [EXP_R]) && Clean(EXP)
  {
    DigitAtoms();
    FragAtom("[0-9]", "+", DIGIT, Plus(DIGIT));
    SignAtom();
    var sign, e := Class(false, [('+', '+'), ('-', '-')]), Class(false, [('e', 'e'), ('E', 'E')]);
    FragAtom("[+-]", "?", sign, Opt(sign));
    ExpAtom();
    FragPlain("[eE]", e);
    var tail := ("[+-]" + "?") + ("[0-9]" + "+");
    FragJoin("[+-]" + "?", [Opt(sign)], "[0-9]" + "+", [Plus(DIGIT)], tail, [Opt(sign), Plus(DIGIT)]);
    FragJoin("[eE]", [e], tail, [Opt(sign), Plus(DIGIT)], "[eE]" + tail, [e, Opt(sign), Plus(DIGIT)]);
    FragSingle("[eE]" + tail, [e, Opt(sign), Plus(DIGIT)], "?", EXP_R);
  }

  lemma NumberFrag()
    ensures Frag(NUMBER, NUMBER_RS) && Clean(NUMBER)
  {
    IntegerFrag();
    FracFrag();
    ExpFrag();
    FragJoin(FRAC, [FRAC_R], EXP, [EXP_R], FRAC + EXP, [FRAC_R, EXP_R]);
    FragJoin(INTEGER, INTEGER_RS, FRAC + EXP, [FRAC_R, EXP_R], NUMBER, NUMBER_RS);
  }

  lemma WordFrag(s: string)
    requires forall i :: 0 <= i < |s| ==> s[i] !in META
    ensures Frag(s, Chars(s)) && Clean(s)
  {
    PlainText(s);
    FragText(s);
  }

  lemma BoolFrag()
    ensures Frag(BOOL, BOOL_RS) && Clean(BOOL)
  {
    WordFrag("true");
    WordFrag("false");
    FragPair("true", Chars("true"), "false", Chars("false"), "", BOOL_RS[0]);
  }
}
