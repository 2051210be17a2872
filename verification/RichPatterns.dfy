/** Compiled schemas need no characters but ASCII and those of their own keys and literals. */
module RichPatterns {
  import opened Wrappers
  import opened Regex
  import opened Completion
  import opened JsonTokens
  import opened JsonLists
  import opened JsonSchema
  import opened JsonSchemaSound

  ghost predicate AllAscii(ok: char -> bool) {
    forall c: char :: c < 128 as char ==> ok(c)
  }

  ghost predicate TextOk(s: string, ok: char -> bool) {
    forall i :: 0 <= i < |s| ==> ok(s[i])
  }

  ghost function KeyIn(ok: char -> bool): string -> bool {
    key => TextOk(key, ok)
  }

  ghost function TextIn(ok: char -> bool): Value -> bool {
    v => TextOk(ToJson(v), ok)
  }

  /** Every character of the schema's property keys, constants and enumerated values is ok. */
  ghost predicate LiteralsOk(schema: Value, ok: char -> bool) {
    Literally(schema, 0, KeyIn(ok), TextIn(ok))
  }

  lemma CharsRich(s: string, ok: char -> bool)
    requires TextOk(s, ok)
    ensures RichSeq(Chars(s), ok)
  {
  }

  lemma RichConcat(a: seq<Regex>, b: seq<Regex>, ok: char -> bool)
    requires RichSeq(a, ok) && RichSeq(b, ok)
    ensures RichSeq(a + b, ok)
  {
  }

  lemma GroupRich(rss: seq<seq<Regex>>, ok: char -> bool)
    requires rss != [] && forall i :: 0 <= i < |rss| ==> RichSeq(rss[i], ok)
    ensures RichSeq([Group(Cats(rss))], ok)
  {
    forall i | 0 <= i < |rss| ensures Rich(Cats(rss)[i], ok) {
      assert Cats(rss)[i] == Cat(rss[i]);
    }
  }

  /** Each class the tokens use has an ASCII member. */
  lemma ClassesRich(ok: char -> bool)
    requires AllAscii(ok)
    ensures Rich(DIGIT, ok) && Rich(HEX, ok) && Rich(PLAIN, ok) && Rich(SHORT, ok) && Rich(Class(false, [('1', '9')]), ok)
    ensures Rich(Class(false, [('e', 'e'), ('E', 'E')]), ok) && Rich(Class(false, [('+', '+'), ('-', '-')]), ok)
  {
    assert ok('1') && [('0', '9')][0] == ('0', '9') && InClass(false, [('0', '9')], '1');
    assert [('0', '9'), ('a', 'f'), ('A', 'F')][0] == ('0', '9') && InClass(false, [('0', '9'), ('a', 'f'), ('A', 'F')], '1');
    assert ok('a') && InClass(true, [('"', '"'), ('\\', '\\')], 'a');
    var short := [('"', '"'), ('\\', '\\'), ('/', '/'), ('b', 'b'), ('f', 'f'), ('n', 'n'), ('r', 'r'), ('t', 't')];
    assert ok('n') && short[5] == ('n', 'n') && InClass(false, short, 'n');
    assert [('1', '9')][0] == ('1', '9') && InClass(false, [('1', '9')], '1');
    assert ok('e') && [('e', 'e'), ('E', 'E')][0] == ('e', 'e') && InClass(false, [('e', 'e'), ('E', 'E')], 'e');
    assert ok('+') && [('+', '+'), ('-', '-')][0] == ('+', '+') && InClass(false, [('+', '+'), ('-', '-')], '+');
  }

  lemma CharsOk(s: string, ok: char -> bool)
    requires AllAscii(ok) && forall i :: 0 <= i < |s| ==> s[i] < 128 as char
    ensures RichSeq(Chars(s), ok)
  {
  }

  lemma WordsRich(ok: char -> bool)
    requires AllAscii(ok)
    ensures RichSeq(BOOL_RS, ok) && RichSeq(Chars("null"), ok)
  {
    CharsOk("true", ok);
    CharsOk("false", ok);
    CharsOk("null", ok);
  }

  lemma SpacesRich(ok: char -> bool)
    requires AllAscii(ok)
    ensures RichSeq(SP_RS, ok) && RichSeq(SEP_RS, ok)
  {
    assert Rich(Chr(' '), ok) && Rich(Chr(','), ok);
    RichConcat([Chr(',')], SP_RS, ok);
    RichConcat(SP_RS, [Chr(',')] + SP_RS, ok);
  }

  lemma TokensRich(ok: char -> bool)
    requires AllAscii(ok)
    ensures RichSeq(STRING_RS, ok) && RichSeq(INTEGER_RS, ok) && RichSeq(NUMBER_RS, ok) && RichSeq(BOOL_RS, ok)
    ensures RichSeq(Chars("null"), ok) && RichSeq(SP_RS, ok) && RichSeq(SEP_RS, ok)
  {
    StringRich(ok);
    NumberRich(ok);
    WordsRich(ok);
    SpacesRich(ok);
  }

  lemma StringRich(ok: char -> bool)
    requires AllAscii(ok)
    ensures RichSeq(STRING_RS, ok)
  {
    hide InClass;
    ClassesRich(ok);
    var four := Cat([Chr('u'), Times(HEX, 4)]);
    assert Rich(four, ok);
    var escape := Alt([Cat([SHORT]), four]);
    assert Rich(Cat([SHORT]), ok) && Rich(escape, ok);
    assert Rich(Cat([Chr('\\'), escape]), ok);
    assert RichSeq([PLAIN], ok);
    assert Rich(Cat([PLAIN]), ok);
    assert Rich(UNIT, ok);
  }

  lemma NumberRich(ok: char -> bool)
    requires AllAscii(ok)
    ensures RichSeq(INTEGER_RS, ok) && RichSeq(NUMBER_RS, ok)
  {
    IntegerRich(ok);
    FractionRich(ok);
    RichConcat(INTEGER_RS, [FRAC_R, EXP_R], ok);
  }

  lemma IntegerRich(ok: char -> bool)
    requires AllAscii(ok)
    ensures RichSeq(INTEGER_RS, ok)
  {
    hide InClass;
    ClassesRich(ok);
    var first := Class(false, [('1', '9')]);
    assert Rich(Cat([first, Star(DIGIT)]), ok);
    assert Rich(Cat([Chr('0')]), ok);
  }

  lemma FractionRich(ok: char -> bool)
    requires AllAscii(ok)
    ensures RichSeq([FRAC_R, EXP_R], ok)
  {
    hide InClass;
    ClassesRich(ok);
    assert Rich(Cat([Chr('.'), Plus(DIGIT)]), ok);
    var sign := Opt(Class(false, [('+', '+'), ('-', '-')]));
    assert Rich(Cat([Class(false, [('e', 'e'), ('E', 'E')]), sign, Plus(DIGIT)]), ok);
  }

  lemma {:induction false} JoinRich(rss: seq<seq<Regex>>, n: nat, ok: char -> bool)
    requires 1 <= n <= |rss| && AllAscii(ok) && forall i :: 0 <= i < n ==> RichSeq(rss[i], ok)
    ensures RichSeq(JoinRs(rss, n), ok)
  {
    if n > 1 {
      JoinRich(rss, n - 1, ok);
      TokensRich(ok);
      RichConcat(SEP_RS, rss[n - 1], ok);
      RichConcat(JoinRs(rss, n - 1), SEP_RS + rss[n - 1], ok);
    }
  }

  lemma MoreRich(rs: seq<Regex>, ok: char -> bool)
    requires AllAscii(ok) && RichSeq(rs, ok)
    ensures Rich(MoreR(rs), ok) && Rich(ListR(rs), ok)
  {
    TokensRich(ok);
    RichConcat(SEP_RS, rs, ok);
    RichConcat(rs, [MoreR(rs)], ok);
  }

  lemma BracketRich(open: char, rs: seq<Regex>, close: char, ok: char -> bool)
    requires AllAscii(ok) && RichSeq(rs, ok) && ok(open) && ok(close)
    ensures RichSeq(BracketRs(open, rs, close), ok) && RichSeq([Chr(open)] + (SP_RS + [Chr(close)]), ok)
  {
    TokensRich(ok);
    RichConcat(SP_RS, [Chr(close)], ok);
    RichConcat(rs, SP_RS + [Chr(close)], ok);
    RichConcat(SP_RS, rs + (SP_RS + [Chr(close)]), ok);
  }

  lemma MemberRich(key: seq<Regex>, value: seq<Regex>, ok: char -> bool)
    requires AllAscii(ok) && RichSeq(key, ok) && RichSeq(value, ok)
    ensures RichSeq(MemberRs(key, value), ok)
  {
    TokensRich(ok);
    RichConcat(SP_RS, value, ok);
    RichConcat([Chr(':')], SP_RS + value, ok);
    RichConcat(SP_RS, [Chr(':')] + (SP_RS + value), ok);
    RichConcat(key, SP_RS + ([Chr(':')] + (SP_RS + value)), ok);
  }

  /** The generic value grammar needs ASCII only. */
  lemma {:induction false} AnyRich(d: nat, ok: char -> bool)
    requires AllAscii(ok)
    ensures RichSeq(AnyRs(d), ok) && RichSeq(AnyObjectRs(d), ok)
    decreases d
  {
    TokensRich(ok);
    if d > 0 {
      AnyRich(d - 1, ok);
      MoreRich(AnyRs(d - 1), ok);
      BracketRich('[', [ListR(AnyRs(d - 1))], ']', ok);
    }
    assert forall i :: 0 <= i < |AnyAltsRs(d)| ==> RichSeq(AnyAltsRs(d)[i], ok);
    GroupRich(AnyAltsRs(d), ok);
    MemberRich(STRING_RS, AnyRs(d), ok);
    MoreRich(MemberRs(STRING_RS, AnyRs(d)), ok);
    BracketRich('{', [ListR(MemberRs(STRING_RS, AnyRs(d)))], '}', ok);
  }

  lemma ArrayRich(rs: seq<Regex>, min: nat, max: Option<nat>, ok: char -> bool)
    requires AllAscii(ok) && RichSeq(rs, ok) && (max.Some? ==> min <= max.value)
    ensures RichSeq(BoundedRs(rs, min, max), ok)
  {
    if max == Some(0) {
      BracketRich('[', [], ']', ok);
    } else {
      BodyRich(rs, min, max, ok);
      BracketRich('[', ArrayRs(rs, min, max), ']', ok);
    }
  }

  lemma BodyRich(rs: seq<Regex>, min: nat, max: Option<nat>, ok: char -> bool)
    requires AllAscii(ok) && RichSeq(rs, ok) && (max.Some? ==> min <= max.value && 0 < max.value)
    ensures RichSeq(ArrayRs(rs, min, max), ok)
  {
    MoreRich(rs, ok);
    if max.None? {
      if min > 0 {
        JoinRich(Copies(rs, min), min, ok);
        RichConcat(JoinRs(Copies(rs, min), min), [MoreR(rs)], ok);
      }
    } else {
      var lo := Max(min, 1);
      var parts := PartsRs(rs, lo, max.value);
      forall i | 0 <= i < |parts| ensures RichSeq(parts[i], ok) {
        JoinRich(Copies(rs, lo + i), lo + i, ok);
      }
      GroupRich(parts, ok);
    }
  }

  /** With ASCII and the schema's own literals ok, the whole pattern is rich. */
  lemma {:induction false} SchemaRichSeq(schema: Value, depth: nat, ok: char -> bool)
    requires Strict(schema, depth) && AllAscii(ok) && Literally(schema, depth, KeyIn(ok), TextIn(ok))
    ensures RichSeq(SchemaRs(schema, depth), ok)
    decreases MAX_DEPTH + 1 - depth, 1
  {
    CompilesIff(schema, depth);
    hide Supported;
    var fields := schema.fields;
    if Get(fields, "const").Some? {
      CharsRich(ToJson(Get(fields, "const").value), ok);
    } else if HasEnum(fields) {
      var vals := Get(fields, "enum").value.items;
      forall i | 0 <= i < |vals| ensures RichSeq(LiteralsRs(vals)[i], ok) {
        CharsRich(ToJson(vals[i]), ok);
      }
      GroupRich(LiteralsRs(vals), ok);
    } else {
      TypedRich(fields, depth, ok);
    }
  }

  lemma {:induction false} TypedRich(fields: seq<Field>, depth: nat, ok: char -> bool)
    requires depth <= MAX_DEPTH && CompileTyped(fields, depth).Ok? && StrictTyped(fields, depth)
    requires AllAscii(ok) && TypedLiterally(fields, depth, KeyIn(ok), TextIn(ok))
    ensures RichSeq(TypedRs(fields, depth), ok)
    decreases MAX_DEPTH + 1 - depth, 0
  {
    TokensRich(ok);
    var ty := GetStr(fields, "type").value;
    if ty == "array" {
      CompiledBounds(fields, depth);
      var items := Get(fields, "items").value;
      SchemaRichSeq(items, depth + 1, ok);
      ArrayRich(SchemaRs(items, depth + 1), Default(GetU64(fields, "minItems"), 0), GetU64(fields, "maxItems"), ok);
    } else if ty == "object" {
      ObjectRich(fields, depth, ok);
    }
  }

  lemma {:induction false} ObjectRich(fields: seq<Field>, depth: nat, ok: char -> bool)
    requires depth <= MAX_DEPTH && (HasProperties(fields) ==> StrictProps(Get(fields, "properties").value.fields, depth))
    requires AllAscii(ok) && (HasProperties(fields) ==> PropsLiterally(Get(fields, "properties").value.fields, depth, KeyIn(ok), TextIn(ok)))
    ensures RichSeq(ObjectSchemaRs(fields, depth), ok)
    decreases MAX_DEPTH - depth, 2
  {
    if !HasProperties(fields) {
      AnyRich(BareDepth(depth), ok);
    } else {
      var props := Get(fields, "properties").value.fields;
      BracketRich('{', [], '}', ok);
      if props != [] {
        var rss := PropsRs(props, depth);
        forall i | 0 <= i < |props| ensures RichSeq(rss[i], ok) {
          SchemaRichSeq(props[i].value, depth + 1, ok);
          KeyRich(props[i].key, ok);
          MemberRich(KeyRs(props[i].key), SchemaRs(props[i].value, depth + 1), ok);
        }
        JoinRich(rss, |props|, ok);
        BracketRich('{', JoinRs(rss, |props|), '}', ok);
      }
    }
  }

  lemma KeyRich(key: string, ok: char -> bool)
    requires AllAscii(ok) && TextOk(key, ok)
    ensures RichSeq(KeyRs(key), ok)
  {
    CharsRich(key, ok);
    RichConcat(Chars(key), [Chr('"')], ok);
    RichConcat([Chr('"')], Chars(key) + [Chr('"')], ok);
  }

  lemma {:induction false} SchemaRich(schema: Value, r: Regex, ok: char -> bool)
    requires Strict(schema, 0) && Parse(PatternOf(schema, 0)) == Some(r) && AllAscii(ok) && LiteralsOk(schema, ok)
    ensures Rich(r, ok)
  {
    SchemaSplices(schema, 0);
    FragParses(PatternOf(schema, 0), SchemaRs(schema, 0));
    SchemaRichSeq(schema, 0, ok);
  }
}
