/**
 Regular expressions as text and as trees: the languages they denote, a parser for the syntax the
 schema compiler emits, and the fragments whose texts may be spliced together freely.
 */
module Regex {
  import opened Wrappers

  datatype Regex =
    | Chr(c: char)
    | Class(negated: bool, ranges: seq<(char, char)>)
    | Cat(rs: seq<Regex>)
    | Alt(rs: seq<Regex>)
    | Opt(r: Regex)
    | Star(r: Regex)
    | Plus(r: Regex)
    | Times(r: Regex, n: nat)

  // ---------------------------------------------------------------- languages

  function Flatten(ws: seq<string>): string {
    if ws == [] then "" else ws[0] + Flatten(ws[1..])
  }

  lemma {:induction false} FlattenConcat(a: seq<string>, b: seq<string>)
    ensures Flatten(a + b) == Flatten(a) + Flatten(b)
  {
    if a == [] {
      assert a + b == b;
    } else {
      assert (a + b)[1..] == a[1..] + b;
      FlattenConcat(a[1..], b);
    }
  }

  predicate InRanges(ranges: seq<(char, char)>, c: char) {
    exists i :: 0 <= i < |ranges| && ranges[i].0 <= c <= ranges[i].1
  }

  /** The words a regular expression matches in full. */
  ghost predicate In(r: Regex, w: string) {
    match r
    case Chr(c) => w == [c]
    case Class(negated, ranges) => |w| == 1 && (InRanges(ranges, w[0]) <==> !negated)
    case Cat(rs) => exists ws: seq<string> :: |ws| == |rs| && Flatten(ws) == w && forall i :: 0 <= i < |rs| ==> In(rs[i], ws[i])
    case Alt(rs) => exists i :: 0 <= i < |rs| && In(rs[i], w)
    case Opt(x) => w == "" || In(x, w)
    case Star(x) => exists ws: seq<string> :: Flatten(ws) == w && forall i :: 0 <= i < |ws| ==> In(x, ws[i])
    case Plus(x) => exists ws: seq<string> :: |ws| >= 1 && Flatten(ws) == w && forall i :: 0 <= i < |ws| ==> In(x, ws[i])
    case Times(x, n) => exists ws: seq<string> :: |ws| == n && Flatten(ws) == w && forall i :: 0 <= i < |ws| ==> In(x, ws[i])
  }

  /** The concatenation of a list of expressions. Folded. */
  ghost predicate InSeq(rs: seq<Regex>, w: string) {
    forall n :: Unfold(n) ==> exists ws: seq<string> :: Words(rs, ws, w)
  }

  ghost predicate Words(rs: seq<Regex>, ws: seq<string>, w: string) {
    |ws| == |rs| && Flatten(ws) == w && forall i :: 0 <= i < |rs| ==> In(rs[i], ws[i])
  }

  /** w splits at k into a word of each list. */
  ghost predicate SplitsAt(a: seq<Regex>, b: seq<Regex>, w: string, k: nat) {
    k <= |w| && InSeq(a, w[..k]) && InSeq(b, w[k..])
  }

  lemma InSeqConcat(a: seq<Regex>, b: seq<Regex>, w: string)
    ensures InSeq(a + b, w) <==> exists k: nat :: SplitsAt(a, b, w, k)
  {
    if InSeq(a + b, w) {
      var u, v := InSeqSplit(a, b, w);
      assert w[..|u|] == u && w[|u|..] == v;
      assert SplitsAt(a, b, w, |u|);
    }
    if k: nat :| SplitsAt(a, b, w, k) {
      assert w == w[..k] + w[k..];
      InSeqJoin(a, w[..k], b, w[k..]);
    }
  }

  lemma InSeqSplit(a: seq<Regex>, b: seq<Regex>, w: string) returns (u: string, v: string)
    requires InSeq(a + b, w)
    ensures w == u + v && InSeq(a, u) && InSeq(b, v)
  {
    assert Unfold(0);
    var ws :| Words(a + b, ws, w);
    var us, vs := ws[..|a|], ws[|a|..];
    assert ws == us + vs;
    FlattenConcat(us, vs);
    u, v := Flatten(us), Flatten(vs);
    forall i | 0 <= i < |b| ensures In(b[i], vs[i]) {
      assert In((a + b)[|a| + i], ws[|a| + i]);
    }
    forall i | 0 <= i < |a| ensures In(a[i], us[i]) {
      assert In((a + b)[i], ws[i]);
    }
    assert Words(a, us, u) && Words(b, vs, v);
  }

  lemma InSeqJoin(a: seq<Regex>, u: string, b: seq<Regex>, v: string)
    requires InSeq(a, u) && InSeq(b, v)
    ensures InSeq(a + b, u + v)
  {
    assert Unfold(0);
    var us :| Words(a, us, u);
    var vs :| Words(b, vs, v);
    FlattenConcat(us, vs);
    assert Words(a + b, us + vs, u + v);
  }

  lemma {:induction false} InSeqOne(r: Regex, w: string)
    ensures InSeq([r], w) <==> In(r, w)
  {
    assert Unfold(0);
    if In(r, w) {
      assert Flatten([w]) == w + Flatten([w][1..]) == w;
      assert Words([r], [w], w);
    }
    if InSeq([r], w) {
      var ws :| Words([r], ws, w);
      assert ws == [ws[0]];
      assert Flatten(ws) == ws[0] + Flatten(ws[1..]) == ws[0];
    }
  }

  lemma {:induction false} InCat(rs: seq<Regex>, w: string)
    ensures In(Cat(rs), w) <==> InSeq(rs, w)
  {
    assert Unfold(0);
    if InSeq(rs, w) {
      var ws :| Words(rs, ws, w);
    }
    if In(Cat(rs), w) {
      var ws: seq<string> :| |ws| == |rs| && Flatten(ws) == w && forall i :: 0 <= i < |rs| ==> In(rs[i], ws[i]);
      assert Words(rs, ws, w);
    }
  }

  /** The characters of a literal. */
  function Chars(s: string): (rs: seq<Regex>)
    ensures |rs| == |s| && forall i :: 0 <= i < |s| ==> rs[i] == Chr(s[i])
  {
    seq(|s|, i requires 0 <= i < |s| => Chr(s[i]))
  }

  lemma {:induction false} InChars(s: string, w: string)
    ensures InSeq(Chars(s), w) <==> w == s
  {
    assert Unfold(0);
    if s == "" {
      assert Words([], [], "");
    } else {
      assert Chars(s) == [Chr(s[0])] + Chars(s[1..]);
      InSeqConcat([Chr(s[0])], Chars(s[1..]), w);
      if k: nat :| SplitsAt([Chr(s[0])], Chars(s[1..]), w, k) {
        InSeqOne(Chr(s[0]), w[..k]);
        InChars(s[1..], w[k..]);
        assert w == w[..k] + w[k..];
      }
      if w == s {
        InSeqOne(Chr(s[0]), w[..1]);
        InChars(s[1..], w[1..]);
        assert SplitsAt([Chr(s[0])], Chars(s[1..]), w, 1);
      }
    }
  }

  // ---------------------------------------------------------------- parsing

  const META: string := "\\.+*?()|[]{}^$"

  type Parsed<T> = Option<(T, string)>

  /** One class member or range, and the rest of the class text. */
  function ParseItem(s: string): (r: Parsed<(char, char)>)
    ensures r.Some? ==> |r.value.1| < |s|
  {
    if s == "" || s[0] == '[' then None
    else if s[0] == '\\' then (if |s| < 2 || s[1] !in META then None else Some(((s[1], s[1]), s[2..])))
    else if |s| >= 3 && s[1] == '-' && s[2] != ']' then
      (if s[2] == '\\' || s[2] < s[0] then None else Some(((s[0], s[2]), s[3..])))
    else Some(((s[0], s[0]), s[1..]))
  }

  /** The members up to the closing bracket. */
  function ParseItems(s: string): (r: Parsed<seq<(char, char)>>)
    ensures r.Some? ==> |r.value.1| < |s|
    decreases |s|
  {
    if s == "" then None
    else if s[0] == ']' then Some(([], s[1..]))
    else
      match ParseItem(s)
      case None => None
      case Some((item, rest)) =>
        match ParseItems(rest)
        case None => None
        case Some((items, rest')) => Some(([item] + items, rest'))
  }

  /** A parenthesised or top-level alternation. */
  function Group(alts: seq<Regex>): Regex {
    if |alts| == 1 then alts[0] else Alt(alts)
  }

  function ParseAtom(s: string): (r: Parsed<Regex>)
    ensures r.Some? ==> |r.value.1| < |s|
    decreases |s|, 0
  {
    if s == "" then None
    else if s[0] == '(' then
      match ParseAlt(s[1..])
      case None => None
      case Some((alts, rest)) => if rest != "" && rest[0] == ')' then Some((Group(alts), rest[1..])) else None
    else if s[0] == '[' then
      var negated := |s| >= 2 && s[1] == '^';
      match ParseItems(if negated then s[2..] else s[1..])
      case None => None
      case Some((items, rest)) => if items == [] then None else Some((Class(negated, items), rest))
    else if s[0] == '\\' then (if |s| < 2 || s[1] !in META then None else Some((Chr(s[1]), s[2..])))
    else if s[0] in META then None
    else Some((Chr(s[0]), s[1..]))
  }

  /** Applies a repetition operator, if there is one. */
  function ParsePostfix(r: Regex, s: string): (p: (Regex, string))
    ensures |p.1| <= |s|
  {
    if s == "" then (r, s)
    else if s[0] == '?' then (Opt(r), s[1..])
    else if s[0] == '*' then (Star(r), s[1..])
    else if s[0] == '+' then (Plus(r), s[1..])
    else if |s| >= 3 && s[0] == '{' && '0' <= s[1] <= '9' && s[2] == '}' then (Times(r, (s[1] - '0') as nat), s[3..])
    else (r, s)
  }

  /** Pieces up to an alternation bar, a closing parenthesis or the end. */
  function ParseSeq(s: string): (r: Parsed<seq<Regex>>)
    ensures r.Some? ==> |r.value.1| <= |s|
    decreases |s|, 1
  {
    if s == "" || s[0] == '|' || s[0] == ')' then Some(([], s))
    else
      match ParseAtom(s)
      case None => None
      case Some((atom, rest)) =>
        var (piece, rest') := ParsePostfix(atom, rest);
        match ParseSeq(rest')
        case None => None
        case Some((rs, rest'')) => Some(([piece] + rs, rest''))
  }

  function ParseAlt(s: string): (r: Parsed<seq<Regex>>)
    ensures r.Some? ==> |r.value.1| <= |s| && r.value.0 != []
    decreases |s|, 2
  {
    match ParseSeq(s)
    case None => None
    case Some((rs, rest)) =>
      if rest != "" && rest[0] == '|' then
        match ParseAlt(rest[1..])
        case None => None
        case Some((alts, rest')) => Some(([Cat(rs)] + alts, rest'))
      else Some(([Cat(rs)], rest))
  }

  /** A whole pattern. */
  function Parse(s: string): Option<Regex> {
    match ParseAlt(s)
    case None => None
    case Some((alts, rest)) => if rest == "" then Some(Group(alts)) else None
  }

  // ---------------------------------------------------------------- fragments

  /** No repetition operator is about to bind. */
  predicate Clean(t: string) {
    t == "" || t[0] !in "?*+{"
  }

  function Prepend(rs: seq<Regex>, p: Parsed<seq<Regex>>): Parsed<seq<Regex>> {
    match p
    case None => None
    case Some((qs, rest)) => Some((rs + qs, rest))
  }

  /** Wherever p stands in a sequence, it contributes exactly the pieces rs: p is balanced and has no bare bar. */
  ghost predicate Frag(p: string, rs: seq<Regex>) {
    forall t: string {:trigger FragAt(p, rs, t)} :: Clean(t) ==> FragAt(p, rs, t)
  }

  ghost predicate FragAt(p: string, rs: seq<Regex>, t: string) {
    ParseSeq(p + t) == Prepend(rs, ParseSeq(t))
  }

  lemma {:induction false} FragUse(p: string, rs: seq<Regex>, t: string)
    requires Frag(p, rs) && Clean(t)
    ensures ParseSeq(p + t) == Prepend(rs, ParseSeq(t))
  {
    assert FragAt(p, rs, t);
  }

  /** p is one atom, whatever follows. */
  ghost predicate IsAtom(p: string, atom: Regex) {
    forall t: string {:trigger AtomAt(p, atom, t)} :: AtomAt(p, atom, t)
  }

  ghost predicate AtomAt(p: string, atom: Regex, t: string) {
    ParseAtom(p + t) == Some((atom, t))
  }

  lemma FragEmpty()
    ensures Frag("", [])
  {
    forall t: string | Clean(t) ensures FragAt("", [], t) {
      assert "" + t == t;
      assert ParseSeq(t).Some? ==> [] + ParseSeq(t).value.0 == ParseSeq(t).value.0;
    }
  }

  lemma FragCat(p: string, a: seq<Regex>, q: string, b: seq<Regex>)
    requires Frag(p, a) && Frag(q, b) && Clean(q)
    ensures Frag(p + q, a + b)
  {
    forall t: string | Clean(t) ensures FragAt(p + q, a + b, t) {
      Assoc(p, q, t);
      assert Clean(q + t);
      FragUse(p, a, q + t);
      FragUse(q, b, t);
      if ParseSeq(t).Some? {
        Assoc(a, b, ParseSeq(t).value.0);
      }
    }
  }

  /** The same, naming the result. */
  lemma FragJoin(p: string, a: seq<Regex>, q: string, b: seq<Regex>, whole: string, all: seq<Regex>)
    requires Frag(p, a) && Frag(q, b) && Clean(q) && whole == p + q && all == a + b
    ensures Frag(whole, all)
  {
    FragCat(p, a, q, b);
  }

  /** An atom with its repetition operator is a fragment of one piece. */
  lemma FragAtom(p: string, op: string, atom: Regex, piece: Regex)
    requires p != "" && p[0] != '|' && p[0] != ')'
    requires IsAtom(p, atom)
    requires OpGives(op, atom, piece)
    ensures Frag(p + op, [piece])
  {
    forall t: string | Clean(t) ensures FragAt(p + op, [piece], t) {
      Assoc(p, op, t);
      assert AtomAt(p, atom, op + t);
      OpParses(op, atom, piece, t);
      assert (p + (op + t))[0] == p[0];
    }
  }

  /** A repetition operator's text and what it makes of an atom. */
  predicate OpGives(op: string, atom: Regex, piece: Regex) {
    || (op == "" && piece == atom)
    || (op == "?" && piece == Opt(atom))
    || (op == "*" && piece == Star(atom))
    || (op == "+" && piece == Plus(atom))
    || (op == "{4}" && piece == Times(atom, 4))
  }

  lemma OpParses(op: string, atom: Regex, piece: Regex, t: string)
    requires OpGives(op, atom, piece) && Clean(t)
    ensures ParsePostfix(atom, op + t) == (piece, t)
  {
    if op == "" {
      assert op + t == t;
    } else if op == "{4}" {
      assert (op + t)[0] == '{' && (op + t)[1] == '4' && (op + t)[2] == '}' && (op + t)[3..] == t;
    } else {
      assert (op + t)[0] == op[0] && (op + t)[1..] == t;
    }
  }

  /** A plain or escaped character with its operator. */
  lemma FragChar(c: char, op: string, piece: Regex)
    requires OpGives(op, Chr(c), piece)
    ensures Frag(EscChar(c) + op, [piece])
  {
    forall t: string ensures AtomAt(EscChar(c), Chr(c), t) {
      var s := EscChar(c) + t;
      if c in META {
        assert s[0] == '\\' && s[1] == c && s[2..] == t;
      } else {
        assert s[0] == c && s[1..] == t;
      }
    }
    FragAtom(EscChar(c), op, Chr(c), piece);
  }

  /** A character as it is written in a pattern. */
  function EscChar(c: char): (s: string)
    ensures s != "" && Clean(s) && s[0] != '|' && s[0] != ')'
  {
    if c in META then ['\\', c] else [c]
  }

  /** Literal text as it is written in a pattern. */
  function EscText(s: string): (p: string)
    ensures Clean(p)
  {
    if s == "" then "" else EscChar(s[0]) + EscText(s[1..])
  }

  /** Escaped text parses to exactly the literal. */
  lemma {:induction false} FragText(s: string)
    ensures Frag(EscText(s), Chars(s))
  {
    if s == "" {
      FragEmpty();
    } else {
      FragText(s[1..]);
      FragChar(s[0], "", Chr(s[0]));
      assert EscChar(s[0]) + "" == EscChar(s[0]);
      FragJoin(EscChar(s[0]), [Chr(s[0])], EscText(s[1..]), Chars(s[1..]), EscText(s), Chars(s));
    }
  }

  /** Text without metacharacters is written as it is. */
  lemma {:induction false} PlainText(s: string)
    requires forall i :: 0 <= i < |s| ==> s[i] !in META
    ensures EscText(s) == s
  {
    if s != "" {
      PlainText(s[1..]);
    }
  }

  /** Alternatives joined by bars. */
  function Bars(ps: seq<string>): string
    requires ps != []
  {
    if |ps| == 1 then ps[0] else ps[0] + "|" + Bars(ps[1..])
  }

  function Cats(rss: seq<seq<Regex>>): (alts: seq<Regex>)
    ensures |alts| == |rss| && forall i :: 0 <= i < |rss| ==> alts[i] == Cat(rss[i])
  {
    seq(|rss|, i requires 0 <= i < |rss| => Cat(rss[i]))
  }

  ghost predicate Frags(ps: seq<string>, rss: seq<seq<Regex>>) {
    |ps| == |rss| && forall i :: 0 <= i < |ps| ==> Frag(ps[i], rss[i])
  }

  lemma {:induction false} BarsParse(ps: seq<string>, rss: seq<seq<Regex>>, t: string)
    requires ps != [] && Frags(ps, rss) && t != "" && t[0] == ')'
    ensures ParseAlt(Bars(ps) + t) == Some((Cats(rss), t))
    decreases |ps|
  {
    if |ps| == 1 {
      FragUse(ps[0], rss[0], t);
      assert Cats(rss) == [Cat(rss[0])];
      assert rss[0] + [] == rss[0];
    } else {
      var rest := Bars(ps[1..]) + t;
      assert Bars(ps) + t == ps[0] + ("|" + rest);
      FragUse(ps[0], rss[0], "|" + rest);
      assert rss[0] + [] == rss[0];
      assert ("|" + rest)[1..] == rest;
      BarsParse(ps[1..], rss[1..], t);
      assert Cats(rss) == [Cat(rss[0])] + Cats(rss[1..]);
    }
  }

  /** Parenthesised alternatives with an operator are a fragment: splicing is safe. */
  lemma {:induction false} FragGroup(ps: seq<string>, rss: seq<seq<Regex>>, op: string, piece: Regex)
    requires ps != [] && Frags(ps, rss) && OpGives(op, Group(Cats(rss)), piece)
    ensures Frag("(" + Bars(ps) + ")" + op, [piece])
  {
    var p := "(" + Bars(ps) + ")";
    forall t: string ensures AtomAt(p, Group(Cats(rss)), t) {
      var s := p + t;
      assert s[0] == '(' && s[1..] == Bars(ps) + (")" + t);
      BarsParse(ps, rss, ")" + t);
      assert (")" + t)[1..] == t;
    }
    FragAtom(p, op, Group(Cats(rss)), piece);
  }

  /** A class or escape alone. */
  lemma FragPlain(p: string, atom: Regex)
    requires IsAtom(p, atom) && p != "" && p[0] != '|' && p[0] != ')'
    ensures Frag(p, [atom])
  {
    FragAtom(p, "", atom, atom);
    assert p + "" == p;
  }

  /** A plain character alone. */
  lemma FragLetter(c: char)
    ensures Frag(EscChar(c), [Chr(c)])
  {
    FragChar(c, "", Chr(c));
    assert EscChar(c) + "" == EscChar(c);
  }

  /** One parenthesised alternative with an operator. */
  lemma FragSingle(p: string, a: seq<Regex>, op: string, piece: Regex)
    requires Frag(p, a) && OpGives(op, Cat(a), piece)
    ensures Frag("(" + p + ")" + op, [piece])
  {
    assert Cats([a]) == [Cat(a)];
    FragGroup([p], [a], op, piece);
  }

  /** Two parenthesised alternatives with an operator. */
  lemma FragPair(p: string, a: seq<Regex>, q: string, b: seq<Regex>, op: string, piece: Regex)
    requires Frag(p, a) && Frag(q, b) && OpGives(op, Alt([Cat(a), Cat(b)]), piece)
    ensures Frag("(" + (p + "|" + q) + ")" + op, [piece])
    ensures op == "" ==> Frag("(" + (p + "|" + q) + ")", [piece])
  {
    var ps, rss := [p, q], [a, b];
    assert Cats(rss) == [Cat(a), Cat(b)];
    assert ps[1..] == [q];
    assert Bars(ps) == p + "|" + Bars([q]) == p + "|" + q;
    FragGroup(ps, rss, op, piece);
    assert "(" + (p + "|" + q) + ")" + "" == "(" + (p + "|" + q) + ")";
  }

  /** A whole fragment parses to the concatenation of its pieces. */
  lemma FragParses(p: string, rs: seq<Regex>)
    requires Frag(p, rs)
    ensures Parse(p) == Some(Cat(rs))
  {
    FragUse(p, rs, "");
    assert p + "" == p;
    assert rs + [] == rs;
  }
}
