/** Schema compiler and token mask together: what a finished structured output is. */
module StructuredOutput {
  import opened Wrappers
  import opened Regex
  import opened Completion
  import opened Utf8
  import opened JsonTokens
  import opened JsonLists
  import opened JsonSchema
  import opened JsonSchemaSound
  import opened RichPatterns
  import opened LogitFsm

  // ---------------------------------------------------------------- every schema has a document

  /** `inner` between brackets, with no space. */
  lemma Brackets(open: char, close: char, inner: string -> bool, x: string)
    requires inner(x)
    ensures Bracketed(open, close, inner, [open] + (x + [close]))
  {
    var w := [open] + (x + [close]);
    var j := 1 + |x|;
    assert w[1..1] == "" && w[1..j] == x && w[j..|w| - 1] == "";
    assert BracketedAt(open, close, inner, w, 1, j);
  }

  /** n texts of a language, one per element, joined. */
  lemma {:induction false} JoinSome(langs: Langs, n: nat, ws: seq<string>) returns (w: string)
    requires 1 <= n <= |ws| && forall i :: 0 <= i < n ==> langs(i, ws[i])
    ensures Joined(langs, n, w)
  {
    if n == 1 {
      w := ws[0];
    } else {
      var v := JoinSome(langs, n - 1, ws);
      w := v + ("," + ws[n - 1]);
      var i, j: nat := |v|, |v| + 1;
      assert w[..i] == v && w[i..j] == "," && w[j..] == ws[n - 1];
      assert JoinedAt(langs, n, w, i, j);
    }
  }

  /** A strict schema always has a document. */
  lemma {:induction false} SomeDocument(schema: Value, depth: nat) returns (w: string)
    requires Strict(schema, depth)
    ensures Doc(schema, depth, w)
    decreases MAX_DEPTH + 1 - depth, 2
  {
    CompilesIff(schema, depth);
    hide Supported;
    var fields := schema.fields;
    if Get(fields, "const").Some? {
      w := ToJson(Get(fields, "const").value);
    } else if HasEnum(fields) {
      w := ToJson(Get(fields, "enum").value.items[0]);
    } else {
      w := SomeTyped(fields, depth);
    }
  }

  lemma {:induction false} SomeTyped(fields: seq<Field>, depth: nat) returns (w: string)
    requires depth <= MAX_DEPTH && CompileTyped(fields, depth).Ok? && StrictTyped(fields, depth)
    ensures DocTyped(fields, depth, w)
    decreases MAX_DEPTH + 1 - depth, 1
  {
    var ty := GetStr(fields, "type").value;
    if ty == "string" {
      w := "\"\"";
      assert w[1..|w| - 1] == "";
    } else if ty == "integer" || ty == "number" {
      w := "0";
      assert w[..1] == "0" && w[1..1] == "" && w[1..] == "";
      assert NumberSplits(w, 1, 1);
    } else if ty == "boolean" {
      w := "true";
    } else if ty == "null" {
      w := "null";
    } else if ty == "array" {
      CompiledBounds(fields, depth);
      w := SomeArray(fields, depth);
    } else {
      w := SomeObject(fields, depth);
    }
  }

  lemma {:induction false} SomeArray(fields: seq<Field>, depth: nat) returns (w: string)
    requires depth <= MAX_DEPTH && BoundsOk(fields) && Strict(Get(fields, "items").value, depth + 1)
    ensures DocArray(fields, depth, w)
    decreases MAX_DEPTH + 1 - depth, 0
  {
    var items := Get(fields, "items").value;
    var min, max := Default(GetU64(fields, "minItems"), 0), GetU64(fields, "maxItems");
    if max == Some(0) {
      w := "[]";
      assert w[1..|w| - 1] == "";
    } else {
      var x := "";
      if min > 0 {
        var item := SomeDocument(items, depth + 1);
        x := JoinSome(ItemLangs(items, depth), min, Copies(item, min));
      }
      w := ['['] + (x + [']']);
      Brackets('[', ']', ArrayInner(items, depth, min, max), x);
    }
  }

  lemma {:induction false} SomeObject(fields: seq<Field>, depth: nat) returns (w: string)
    requires depth <= MAX_DEPTH && (HasProperties(fields) ==> StrictProps(Get(fields, "properties").value.fields, depth))
    ensures DocObject(fields, depth, w)
    decreases MAX_DEPTH + 1 - depth, 0
  {
    if !HasProperties(fields) {
      Brackets('{', '}', AnyObjectInner(BareDepth(depth)), "");
      w := ['{'] + ("" + ['}']);
    } else {
      var props := Get(fields, "properties").value.fields;
      if props == [] {
        w := "{}";
        assert w[1..|w| - 1] == "";
      } else {
        var ws := SomeMembers(props, depth, |props|);
        var x := JoinSome(PropLangs(props, depth), |props|, ws);
        w := ['{'] + (x + ['}']);
        Brackets('{', '}', ObjectInner(props, depth), x);
      }
    }
  }

  /** A member for each of the first n properties. */
  lemma {:induction false} SomeMembers(props: seq<Field>, depth: nat, n: nat) returns (ws: seq<string>)
    requires depth <= MAX_DEPTH && n <= |props| && StrictProps(props, depth)
    ensures |ws| == n && forall i :: 0 <= i < n ==> PropLangs(props, depth)(i, ws[i])
    decreases MAX_DEPTH - depth, 3, n
  {
    if n == 0 {
      ws := [];
    } else {
      ws := SomeMembers(props, depth, n - 1);
      var v := SomeDocument(props[n - 1].value, depth + 1);
      var w := SomeMember(KeyLang(props[n - 1].key), "\"" + (props[n - 1].key + "\""), DocLang(props[n - 1].value, depth), v);
      ws := ws + [w];
    }
  }

  lemma SomeMember(key: string -> bool, k: string, value: string -> bool, v: string) returns (w: string)
    requires key(k) && value(v)
    ensures Member(key, value, w)
  {
    w := k + (":" + v);
    assert w[..|k|] == k && w[|k|..|k|] == "" && w[|k| + 1..|k| + 1] == "" && w[|k| + 1..] == v;
    assert MemberAt(key, value, w, |k|, |k|, |k| + 1);
  }

  // ---------------------------------------------------------------- schema and mask together

  /** The automaton recognises the pattern over the bytes of texts. */
  ghost predicate Recognises(dfa: Dfa, r: Regex) {
    forall b :: Accepts(dfa, dfa.start, b) <==> exists t: string :: Encodes(r, t, b)
  }

  ghost predicate Encodes(r: Regex, t: string, b: seq<Byte>) {
    b == Encode(t) && In(r, t)
  }

  /** The bytes are a strict document of the schema. */
  ghost predicate Document(schema: Value, text: string, b: seq<Byte>) {
    b == Encode(text) && Doc(schema, 0, text)
  }

  /** The bytes are some strict document of the schema. */
  ghost predicate IsDocument(schema: Value, b: seq<Byte>) {
    exists text :: Document(schema, text, b)
  }

  /** Table entries are texts: an entry whose bytes are no text is left out of the table. */
  ghost predicate TextTable(table: TokenByteTable) {
    forall id :: 0 <= id < |table.bytes| && table.bytes[id].Some? ==> exists t: string :: table.bytes[id].value == Encode(t)
  }

  /** Some ordinary token is the character alone. */
  ghost predicate Spelled(table: TokenByteTable, c: char) {
    exists id :: 0 <= id < |table.bytes| && id != table.eos && table.bytes[id] == Some(Encode([c]))
  }

  ghost function SpelledBy(table: TokenByteTable): char -> bool {
    c => Spelled(table, c)
  }

  lemma {:induction false} SurfaceText(table: TokenByteTable, tokens: seq<nat>) returns (u: string)
    requires TextTable(table)
    ensures Surface(table, tokens) == Encode(u)
    decreases |tokens|
  {
    if tokens == [] {
      u := "";
    } else {
      var v := SurfaceText(table, tokens[..|tokens| - 1]);
      var id := tokens[|tokens| - 1];
      if id < |table.bytes| && table.bytes[id].Some? {
        var t: string :| table.bytes[id].value == Encode(t);
        EncodeConcat(v, t);
        u := v + t;
      } else {
        u := v;
      }
    }
  }

  /** From an unfinished text that can be finished, it can be finished with spelled characters, the first of which is a token. */
  lemma {:induction false} RichNoDeadEnd(dfa: Dfa, table: TokenByteTable, r: Regex)
    requires Live(dfa, dfa.start) && Recognises(dfa, r) && TextTable(table) && Rich(r, SpelledBy(table))
    ensures NoDeadEnd(dfa, table)
  {
    forall tokens ensures !DeadEnd(dfa, table, tokens) {
      if PermittedRun(dfa, table, tokens) && !dfa.accept(StateAfter(dfa, table, tokens)) {
        var id := NextPiece(dfa, table, r, tokens);
      }
    }
  }

  lemma {:induction false} NextPiece(dfa: Dfa, table: TokenByteTable, r: Regex, tokens: seq<nat>) returns (id: nat)
    requires Live(dfa, dfa.start) && Recognises(dfa, r) && TextTable(table) && Rich(r, SpelledBy(table))
    requires PermittedRun(dfa, table, tokens) && !dfa.accept(StateAfter(dfa, table, tokens))
    ensures id < |table.bytes| && Viable(dfa, table, StateAfter(dfa, table, tokens), id)
  {
    var s := StateAfter(dfa, table, tokens);
    ConstrainedRun(dfa, table, tokens);
    var u := SurfaceText(table, tokens);
    var w :| Accepts(dfa, s, w);
    RunConcat(dfa, dfa.start, Encode(u), w);
    assert Accepts(dfa, dfa.start, Encode(u) + w);
    var t: string :| Encodes(r, t, Encode(u) + w);
    TextPrefix(u, w, t);
    var v := Completed(r, SpelledBy(table), t, |u|);
    id := NextCharacter(dfa, table, r, u, v, s);
  }

  lemma {:induction false} AcceptsWord(dfa: Dfa, r: Regex, v: string)
    requires Recognises(dfa, r) && In(r, v)
    ensures Accepts(dfa, dfa.start, Encode(v))
  {
    assert Encodes(r, v, Encode(v));
  }

  /** The first character of a completion. */
  lemma {:induction false} NextCharacter(dfa: Dfa, table: TokenByteTable, r: Regex, u: string, v: string, s: State) returns (id: nat)
    requires Recognises(dfa, r) && Run(dfa, dfa.start, Encode(u)) == Some(s) && !dfa.accept(s)
    requires In(r, v) && |u| <= |v| && v[..|u|] == u && forall i :: |u| <= i < |v| ==> Spelled(table, v[i])
    ensures id < |table.bytes| && Viable(dfa, table, s, id)
  {
    hide In;
    AcceptsWord(dfa, r, v);
    assert |u| == |v| ==> v == u;
    var c, rest := v[|u|], v[|u| + 1..];
    assert v == u + ([c] + rest);
    EncodeConcat(u, [c] + rest);
    EncodeConcat([c], rest);
    RunConcat(dfa, dfa.start, Encode(u), Encode([c]) + Encode(rest));
    assert Accepts(dfa, s, Encode([c]) + Encode(rest));
    assert Spelled(table, c);
    id :| 0 <= id < |table.bytes| && id != table.eos && table.bytes[id] == Some(Encode([c]));
    PieceViable(dfa, table, s, id, Encode(rest));
  }

  /** The automaton accepts exactly the strict documents' bytes. */
  lemma {:induction false} AcceptsDocuments(dfa: Dfa, schema: Value, r: Regex, b: seq<Byte>)
    requires Strict(schema, 0) && Parse(PatternOf(schema, 0)) == Some(r) && Recognises(dfa, r)
    ensures Accepts(dfa, dfa.start, b) <==> IsDocument(schema, b)
  {
    hide Strict, CompileOf, Parse, Doc, Accepts;
    if Accepts(dfa, dfa.start, b) {
      var t: string :| Encodes(r, t, b);
      SchemaSound(schema, t);
      assert Document(schema, t, b);
    }
    if t :| Document(schema, t, b) {
      SchemaSound(schema, t);
      assert Encodes(r, t, b);
    }
  }

  /** A strict schema's pattern, once compiled, can always be started. */
  lemma {:induction false} SchemaLive(dfa: Dfa, schema: Value, r: Regex)
    requires Strict(schema, 0) && Parse(PatternOf(schema, 0)) == Some(r) && Recognises(dfa, r)
    ensures Live(dfa, dfa.start)
  {
    var w := SomeDocument(schema, 0);
    SchemaSound(schema, w);
    assert Encodes(r, w, Encode(w));
    assert Accepts(dfa, dfa.start, Encode(w));
  }

  /**
   With an automaton for a strict schema's pattern, and a table of texts that has a token for every
   ASCII character and for every character of the schema's keys and literals, generation can start, and a
   constrained generation may stop exactly when its text is a strict document of the schema.
   */
  lemma {:induction false} StopsOnDocuments(dfa: Dfa, table: TokenByteTable, tokens: seq<nat>, schema: Value, r: Regex)
    requires Strict(schema, 0) && Parse(PatternOf(schema, 0)) == Some(r) && Recognises(dfa, r)
    requires TextTable(table) && AllAscii(SpelledBy(table)) && LiteralsOk(schema, SpelledBy(table))
    requires PermittedRun(dfa, table, tokens)
    ensures Live(dfa, dfa.start) && NoDeadEnd(dfa, table)
    ensures Permitted(dfa, table, StateAfter(dfa, table, tokens), table.eos)
            <==> IsDocument(schema, Surface(table, tokens))
  {
    hide Strict, CompileOf, Parse, Doc, AllAscii, LiteralsOk, TextTable, Recognises, Live, NoDeadEnd, IsDocument, Accepts, Permitted, PermittedRun;
    SchemaLive(dfa, schema, r);
    SchemaRich(schema, r, SpelledBy(table));
    RichNoDeadEnd(dfa, table, r);
    FinishedMatches(dfa, table, tokens);
    assert StopsRight(dfa, table, tokens);
    AcceptsDocuments(dfa, schema, r, Surface(table, tokens));
  }
}
