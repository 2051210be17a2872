/**
 What a compiled schema means. `Doc` says which texts are strict documents of a schema, without
 mentioning patterns; the pattern compiled from the schema parses, and matches exactly those texts.
 */
module JsonSchemaSound {
  import opened Wrappers
  import opened Regex
  import opened JsonTokens
  import opened JsonTokenTexts
  import opened JsonLists
  import opened JsonSchema

  // ---------------------------------------------------------------- strict documents

  /** A key between quotes, as the compiler writes it. */
  ghost function KeyLang(key: string): string -> bool {
    k => k == "\"" + (key + "\"")
  }

  ghost function StringTok(): string -> bool {
    w => IsString(w)
  }

  /** Any JSON value whose arrays and objects nest at most d deep. */
  ghost predicate AnyDoc(d: nat, w: string)
    decreases d, 3
  {
    || IsString(w) || IsNumber(w) || w == "true" || w == "false" || w == "null"
    || (d > 0 && (Bracketed('[', ']', AnyArrayInner(d - 1), w) || AnyObjectDoc(d - 1, w)))
  }

  /** Any JSON object with values nesting at most d deep. */
  ghost predicate AnyObjectDoc(d: nat, w: string)
    decreases d, 7
  {
    Bracketed('{', '}', AnyObjectInner(d), w)
  }

  ghost function AnyArrayInner(d: nat): string -> bool
    decreases d, 5
  {
    x => x == "" || JoinedFrom(AnyLangs(d), 1, x)
  }

  ghost function AnyObjectInner(d: nat): string -> bool
    decreases d, 6
  {
    x => x == "" || JoinedFrom(AnyMembers(d), 1, x)
  }

  ghost function AnyLang(d: nat): string -> bool
    decreases d, 4
  {
    y => AnyDoc(d, y)
  }

  ghost function AnyLangs(d: nat): Langs
    decreases d, 4
  {
    (i, y) => AnyDoc(d, y)
  }

  ghost function AnyMembers(d: nat): Langs
    decreases d, 5
  {
    (i, y) => Member(StringTok(), AnyLang(d), y)
  }

  /** The schema is one that compiles, and no string is constrained by a pattern of its own. */
  ghost predicate Strict(schema: Value, depth: nat)
    decreases if depth <= MAX_DEPTH then MAX_DEPTH + 1 - depth else 0, 2
  {
    Supported(schema, depth)
    && (Get(schema.fields, "const").None? && !HasEnum(schema.fields) ==> StrictTyped(schema.fields, depth))
  }

  predicate HasEnum(fields: seq<Field>) {
    Get(fields, "enum").Some? && Get(fields, "enum").value.Arr?
  }

  predicate HasProperties(fields: seq<Field>) {
    Get(fields, "properties").Some? && Get(fields, "properties").value.Obj?
  }

  ghost predicate StrictTyped(fields: seq<Field>, depth: nat)
    requires depth <= MAX_DEPTH
    decreases MAX_DEPTH + 1 - depth, 1
  {
    match GetStr(fields, "type")
    case None => true
    case Some(ty) =>
      && (ty == "string" ==> GetStr(fields, "pattern").None?)
      && (ty == "array" && Get(fields, "items").Some? ==> Strict(Get(fields, "items").value, depth + 1))
      && (ty == "object" && HasProperties(fields) ==>
            StrictProps(Get(fields, "properties").value.fields, depth))
  }

  ghost predicate StrictProps(props: seq<Field>, depth: nat)
    requires depth <= MAX_DEPTH
    decreases MAX_DEPTH + 1 - depth, 0
  {
    forall i {:trigger props[i]} :: 0 <= i < |props| ==> Strict(props[i].value, depth + 1)
  }

  /** w is a strict document of the schema. */
  ghost predicate Doc(schema: Value, depth: nat, w: string)
    decreases if depth <= MAX_DEPTH then MAX_DEPTH + 1 - depth else 0, 9
  {
    if depth > MAX_DEPTH || !schema.Obj? then false
    else
      var fields := schema.fields;
      if Get(fields, "const").Some? then w == ToJson(Get(fields, "const").value)
      else if HasEnum(fields) then
        var vals := Get(fields, "enum").value.items;
        exists i :: 0 <= i < |vals| && w == ToJson(vals[i])
      else DocTyped(fields, depth, w)
  }

  ghost predicate DocTyped(fields: seq<Field>, depth: nat, w: string)
    requires depth <= MAX_DEPTH
    decreases MAX_DEPTH + 1 - depth, 8
  {
    match GetStr(fields, "type")
    case None => false
    case Some(ty) =>
      if ty == "string" then IsString(w)
      else if ty == "integer" then IsInteger(w)
      else if ty == "number" then IsNumber(w)
      else if ty == "boolean" then w == "true" || w == "false"
      else if ty == "null" then w == "null"
      else if ty == "array" then Get(fields, "items").Some? && DocArray(fields, depth, w)
      else ty == "object" && DocObject(fields, depth, w)
  }

  /** Between minItems and maxItems items. */
  ghost predicate DocArray(fields: seq<Field>, depth: nat, w: string)
    requires depth <= MAX_DEPTH && Get(fields, "items").Some?
    decreases MAX_DEPTH + 1 - depth, 7
  {
    DocItems(Get(fields, "items").value, depth, MinItems(fields), MaxItems(fields), w)
  }

  ghost predicate DocItems(items: Value, depth: nat, min: nat, max: Option<nat>, w: string)
    requires depth <= MAX_DEPTH
    decreases MAX_DEPTH + 1 - depth, 6, 1
  {
    if max == Some(0) then |w| >= 2 && w[0] == '[' && w[|w| - 1] == ']' && IsSpace(w[1..|w| - 1])
    else Bracketed('[', ']', ArrayInner(items, depth, min, max), w)
  }

  ghost function ArrayInner(items: Value, depth: nat, min: nat, max: Option<nat>): string -> bool
    requires depth <= MAX_DEPTH
    decreases MAX_DEPTH + 1 - depth, 6, 0
  {
    x => (min == 0 && x == "") || CountWithin(ItemLangs(items, depth), Max(min, 1), max, x)
  }

  ghost predicate CountWithin(langs: Langs, lo: nat, hi: Option<nat>, x: string) {
    exists n: nat :: lo <= n && (hi.Some? ==> n <= hi.value) && Joined(langs, n, x)
  }

  ghost function ItemLangs(items: Value, depth: nat): Langs
    requires depth <= MAX_DEPTH
    decreases MAX_DEPTH + 1 - depth, 0
  {
    (i, y) => Doc(items, depth + 1, y)
  }

  /** Every declared property, in order; without declarations, any object. */
  ghost predicate DocObject(fields: seq<Field>, depth: nat, w: string)
    requires depth <= MAX_DEPTH
    decreases MAX_DEPTH + 1 - depth, 7
  {
    if !HasProperties(fields) then AnyObjectDoc(if depth < 5 then 4 - depth else 0, w)
    else
      var props := Get(fields, "properties").value.fields;
      if props == [] then |w| >= 2 && w[0] == '{' && w[|w| - 1] == '}' && IsSpace(w[1..|w| - 1])
      else Bracketed('{', '}', ObjectInner(props, depth), w)
  }

  ghost function ObjectInner(props: seq<Field>, depth: nat): string -> bool
    requires depth <= MAX_DEPTH
    decreases MAX_DEPTH + 1 - depth, 6
  {
    x => Joined(PropLangs(props, depth), |props|, x)
  }

  ghost function PropLangs(props: seq<Field>, depth: nat): Langs
    requires depth <= MAX_DEPTH
    decreases MAX_DEPTH + 1 - depth, 5
  {
    (i: nat, y: string) => i < |props| && Member(KeyLang(props[i].key), DocLang(props[i].value, depth), y)
  }

  ghost function DocLang(v: Value, depth: nat): string -> bool
    requires depth <= MAX_DEPTH
    decreases MAX_DEPTH + 1 - depth, 0
  {
    y => Doc(v, depth + 1, y)
  }

  /** What the schema takes over literally: its property keys, its constants and enumerated values. */
  ghost predicate Literally(schema: Value, depth: nat, key: string -> bool, literal: Value -> bool)
    decreases if depth <= MAX_DEPTH then MAX_DEPTH + 1 - depth else 0, 2
  {
    if depth > MAX_DEPTH || !schema.Obj? then true
    else
      var fields := schema.fields;
      if Get(fields, "const").Some? then literal(Get(fields, "const").value)
      else if HasEnum(fields) then
        var vals := Get(fields, "enum").value.items;
        forall i :: 0 <= i < |vals| ==> literal(vals[i])
      else TypedLiterally(fields, depth, key, literal)
  }

  ghost predicate TypedLiterally(fields: seq<Field>, depth: nat, key: string -> bool, literal: Value -> bool)
    requires depth <= MAX_DEPTH
    decreases MAX_DEPTH + 1 - depth, 1
  {
    && (GetStr(fields, "type") == Some("array") && Get(fields, "items").Some? ==>
          Literally(Get(fields, "items").value, depth + 1, key, literal))
    && (GetStr(fields, "type") == Some("object") && HasProperties(fields) ==>
          PropsLiterally(Get(fields, "properties").value.fields, depth, key, literal))
  }

  ghost predicate PropsLiterally(props: seq<Field>, depth: nat, key: string -> bool, literal: Value -> bool)
    requires depth <= MAX_DEPTH
    decreases MAX_DEPTH + 1 - depth, 0
  {
    forall i {:trigger props[i]} :: 0 <= i < |props| ==>
      key(props[i].key) && Literally(props[i].value, depth + 1, key, literal)
  }

  // ---------------------------------------------------------------- pieces of the compiled patterns

  const TOKENS_RS: seq<seq<Regex>> := [STRING_RS, NUMBER_RS, BOOL_RS, Chars("null")]

  function AnyAltsRs(d: nat): (rss: seq<seq<Regex>>)
    ensures |rss| >= 4
    decreases d, 0
  {
    TOKENS_RS + (if d == 0 then [] else NestRs(d - 1))
  }

  function NestRs(d: nat): (rss: seq<seq<Regex>>)
    ensures |rss| == 2
    decreases d, 3
  {
    [BracketRs('[', [ListR(AnyRs(d))], ']'), AnyObjectRs(d)]
  }

  function AnyRs(d: nat): seq<Regex>
    decreases d, 1
  {
    [Group(Cats(AnyAltsRs(d)))]
  }

  function AnyObjectRs(d: nat): seq<Regex>
    decreases d, 2
  {
    BracketRs('{', [ListR(MemberRs(STRING_RS, AnyRs(d)))], '}')
  }

  function PartsRs(rs: seq<Regex>, lo: nat, hi: nat): (rss: seq<seq<Regex>>)
    requires 1 <= lo
    ensures |rss| == (if lo <= hi then hi + 1 - lo else 0)
    ensures forall i :: 0 <= i < |rss| ==> rss[i] == JoinRs(Copies(rs, lo + i), lo + i)
  {
    seq(if lo <= hi then hi + 1 - lo else 0, i requires 0 <= i => JoinRs(Copies(rs, lo + i), lo + i))
  }

  function ArrayRs(rs: seq<Regex>, min: nat, max: Option<nat>): seq<Regex>
    requires max.Some? ==> min <= max.value && 0 < max.value
  {
    match max
    case None => if min == 0 then [ListR(rs)] else JoinRs(Copies(rs, min), min) + [MoreR(rs)]
    case Some(m) =>
      var alt := Group(Cats(PartsRs(rs, Max(min, 1), m)));
      if min == 0 then [Opt(Cat([alt]))] else [alt]
  }

  function KeyRs(key: string): seq<Regex> {
    [Chr('"')] + (Chars(key) + [Chr('"')])
  }

  function LiteralsRs(vs: seq<Value>): (rss: seq<seq<Regex>>)
    ensures |rss| == |vs| && forall i :: 0 <= i < |vs| ==> rss[i] == Chars(ToJson(vs[i]))
  {
    seq(|vs|, i requires 0 <= i < |vs| => Chars(ToJson(vs[i])))
  }

  // ---------------------------------------------------------------- the generic value grammar

  lemma {:induction false} GroupAlone(ps: seq<string>, rss: seq<seq<Regex>>)
    requires ps != [] && Frags(ps, rss)
    ensures Frag("(" + Bars(ps) + ")", [Group(Cats(rss))])
  {
    FragGroup(ps, rss, "", Group(Cats(rss)));
    assert "(" + Bars(ps) + ")" + "" == "(" + Bars(ps) + ")";
  }

  lemma InGroup(rss: seq<seq<Regex>>, w: string)
    requires rss != []
    ensures InSeq([Group(Cats(rss))], w) <==> exists i :: 0 <= i < |rss| && InSeq(rss[i], w)
  {
    InSeqOne(Group(Cats(rss)), w);
    forall i | 0 <= i < |rss| ensures In(Cats(rss)[i], w) <==> InSeq(rss[i], w) {
      InCat(rss[i], w);
    }
    assert |rss| == 1 ==> InSeq(rss[0], w) == In(Cats(rss)[0], w);
  }

  lemma FragsConcat(ps: seq<string>, rss: seq<seq<Regex>>, qs: seq<string>, sss: seq<seq<Regex>>)
    requires Frags(ps, rss) && Frags(qs, sss)
    ensures Frags(ps + qs, rss + sss)
  {
  }

  lemma TokenFrags()
    ensures Frags(TOKENS, TOKENS_RS)
  {
    StringFrag();
    NumberFrag();
    BoolFrag();
    WordFrag("null");
  }

  lemma {:induction false} AltsFrags(d: nat)
    ensures Frags(AnyAlts(d), AnyAltsRs(d))
    decreases d, 0
  {
    TokenFrags();
    if d > 0 {
      NestFrags(d - 1);
      FragsConcat(TOKENS, TOKENS_RS, NestAlts(d - 1), NestRs(d - 1));
    } else {
      FragsConcat(TOKENS, TOKENS_RS, [], []);
    }
  }

  lemma {:induction false} AnyFrag(d: nat)
    ensures Frag(AnyText(d), AnyRs(d)) && Clean(AnyText(d))
    decreases d, 1
  {
    AltsFrags(d);
    GroupAlone(AnyAlts(d), AnyAltsRs(d));
  }

  lemma {:induction false} NestFrags(d: nat)
    ensures Frags(NestAlts(d), NestRs(d))
    decreases d, 3
  {
    AnyArrayFrag(d);
    AnyObjectFrag(d);
  }

  lemma {:induction false} AnyArrayFrag(d: nat)
    ensures Frag(BracketText('[', ListText(AnyText(d)), ']'), BracketRs('[', [ListR(AnyRs(d))], ']'))
    decreases d, 2
  {
    AnyFrag(d);
    ListFrag(AnyText(d), AnyRs(d));
    BracketFrag('[', ListText(AnyText(d)), [ListR(AnyRs(d))], ']');
  }

  lemma {:induction false} AnyObjectFrag(d: nat)
    ensures Frag(AnyObjectText(d), AnyObjectRs(d)) && Clean(AnyObjectText(d))
    decreases d, 2
  {
    AnyFrag(d);
    StringFrag();
    var m := MemberText(STRING, AnyText(d));
    MemberFrag(STRING, STRING_RS, AnyText(d), AnyRs(d));
    ListFrag(m, MemberRs(STRING_RS, AnyRs(d)));
    BracketFrag('{', ListText(m), [ListR(MemberRs(STRING_RS, AnyRs(d)))], '}');
  }

  lemma StringMatches()
    ensures Matches(STRING_RS, StringTok())
  {
    forall u ensures InSeq(STRING_RS, u) <==> StringTok()(u) {
      StringLang(u);
    }
  }

  lemma {:induction false} AnyMatches(d: nat)
    ensures Matches(AnyRs(d), AnyLang(d))
    decreases d, 1
  {
    forall w ensures InSeq(AnyRs(d), w) <==> AnyLang(d)(w) {
      AnyMatchesAt(d, w);
    }
  }

  lemma {:induction false} AnyMatchesAt(d: nat, w: string)
    ensures InSeq(AnyRs(d), w) <==> AnyDoc(d, w)
    decreases d, 0
  {
    InGroup(AnyAltsRs(d), w);
    AnyCases(d, w);
    AnyTokens(d, w);
    if d > 0 {
      AnyArrayMatches(d - 1, w);
      AnyObjectMatches(d - 1, w);
    }
  }

  /** The alternatives one by one. */
  lemma {:induction false} AnyCases(d: nat, w: string)
    ensures (exists i :: 0 <= i < |AnyAltsRs(d)| && InSeq(AnyAltsRs(d)[i], w))
            <==> || InSeq(STRING_RS, w) || InSeq(NUMBER_RS, w) || InSeq(BOOL_RS, w) || InSeq(Chars("null"), w)
                 || (d > 0 && (InSeq(BracketRs('[', [ListR(AnyRs(d - 1))], ']'), w) || InSeq(AnyObjectRs(d - 1), w)))
  {
    var rss := AnyAltsRs(d);
    assert rss[0] == STRING_RS && rss[1] == NUMBER_RS && rss[2] == BOOL_RS && rss[3] == Chars("null");
    if d > 0 {
      assert rss == TOKENS_RS + NestRs(d - 1);
      assert |rss| == 6 && rss[4] == BracketRs('[', [ListR(AnyRs(d - 1))], ']') && rss[5] == AnyObjectRs(d - 1);
    }
  }

  lemma AnyTokens(d: nat, w: string)
    ensures InSeq(STRING_RS, w) <==> IsString(w)
    ensures InSeq(NUMBER_RS, w) <==> IsNumber(w)
    ensures InSeq(BOOL_RS, w) <==> w == "true" || w == "false"
    ensures InSeq(Chars("null"), w) <==> w == "null"
  {
    StringLang(w);
    NumberLang(w);
    BoolLang(w);
    InChars("null", w);
  }

  lemma {:induction false} AnyArrayMatches(d: nat, w: string)
    ensures InSeq(BracketRs('[', [ListR(AnyRs(d))], ']'), w) <==> Bracketed('[', ']', AnyArrayInner(d), w)
    decreases d, 2
  {
    AnyMatches(d);
    assert Denotes(AnyRs(d), AnyLangs(d), 0) by {
      forall u ensures InSeq(AnyRs(d), u) <==> AnyLangs(d)(0, u) {
        assert AnyLang(d)(u) == AnyDoc(d, u);
      }
    }
    forall u ensures InSeq([ListR(AnyRs(d))], u) <==> AnyArrayInner(d)(u) {
      ListLang(AnyRs(d), AnyLangs(d), u);
    }
    BracketLang('[', [ListR(AnyRs(d))], ']', AnyArrayInner(d), w);
  }

  lemma {:induction false} AnyObjectMatches(d: nat, w: string)
    ensures InSeq(AnyObjectRs(d), w) <==> AnyObjectDoc(d, w)
    decreases d, 2
  {
    AnyMatches(d);
    StringMatches();
    var m := MemberRs(STRING_RS, AnyRs(d));
    assert Denotes(m, AnyMembers(d), 0) by {
      forall u ensures InSeq(m, u) <==> AnyMembers(d)(0, u) {
        MemberLang(STRING_RS, StringTok(), AnyRs(d), AnyLang(d), u);
      }
    }
    forall u ensures InSeq([ListR(m)], u) <==> AnyObjectInner(d)(u) {
      ListLang(m, AnyMembers(d), u);
    }
    BracketLang('{', [ListR(m)], '}', AnyObjectInner(d), w);
  }

  /** The shapeless grammar parses, and matches exactly the JSON values nesting at most d deep. */
  lemma {:induction false} AnyJsonSound(d: nat, w: string)
    ensures Parse(AnyText(d)).Some? && (In(Parse(AnyText(d)).value, w) <==> AnyDoc(d, w))
  {
    AnyFrag(d);
    FragParses(AnyText(d), AnyRs(d));
    InCat(AnyRs(d), w);
    AnyMatches(d);
    assert AnyLang(d)(w) == AnyDoc(d, w);
  }

  /** A deeper budget admits every text of a smaller one. */
  lemma {:induction false} AnyDocDeeper(d: nat, w: string)
    requires AnyDoc(d, w)
    ensures AnyDoc(d + 1, w)
    decreases d
  {
    if d > 0 && Bracketed('[', ']', AnyArrayInner(d - 1), w) {
      forall x | AnyArrayInner(d - 1)(x) ensures AnyArrayInner(d)(x) {
        if x != "" {
          var m: nat :| 1 <= m && Joined(AnyLangs(d - 1), m, x);
          forall i: nat, y | AnyLangs(d - 1)(i, y) ensures AnyLangs(d)(i, y) {
            AnyDocDeeper(d - 1, y);
          }
          JoinedWider(AnyLangs(d - 1), AnyLangs(d), m, x);
        }
      }
      BracketedWider('[', ']', AnyArrayInner(d - 1), AnyArrayInner(d), w);
    }
    if d > 0 && AnyObjectDoc(d - 1, w) {
      forall x | AnyObjectInner(d - 1)(x) ensures AnyObjectInner(d)(x) {
        if x != "" {
          var m: nat :| 1 <= m && Joined(AnyMembers(d - 1), m, x);
          forall i: nat, y | AnyMembers(d - 1)(i, y) ensures AnyMembers(d)(i, y) {
            var k, s, t, v := MemberTake(StringTok(), AnyLang(d - 1), y);
            AnyDocDeeper(d - 1, v);
            MemberMake(StringTok(), AnyLang(d), k, s, t, v);
          }
          JoinedWider(AnyMembers(d - 1), AnyMembers(d), m, x);
        }
      }
      BracketedWider('{', '}', AnyObjectInner(d - 1), AnyObjectInner(d), w);
    }
  }

  lemma {:induction false} JoinedWider(a: Langs, b: Langs, n: nat, w: string)
    requires Joined(a, n, w) && forall i: nat, y :: a(i, y) ==> b(i, y)
    ensures Joined(b, n, w)
    decreases n
  {
    if n > 1 {
      var u, s, v := JoinedLess(a, n, w);
      JoinedWider(a, b, n - 1, u);
      JoinedMore(b, n - 1, u, s, v);
    }
  }

  lemma BracketedWider(open: char, close: char, a: string -> bool, b: string -> bool, w: string)
    requires Bracketed(open, close, a, w) && forall x :: a(x) ==> b(x)
    ensures Bracketed(open, close, b, w)
  {
    var s, x, t := BracketTake(open, close, a, w);
    BracketMake(open, close, b, s, x, t);
  }

  // ---------------------------------------------------------------- compiled schemas as fragments

  /** The pieces of a compiled schema. */
  function SchemaRs(schema: Value, depth: nat): seq<Regex>
    decreases if depth <= MAX_DEPTH then MAX_DEPTH + 1 - depth else 0, 3
  {
    if depth > MAX_DEPTH || !schema.Obj? then []
    else
      var fields := schema.fields;
      if Get(fields, "const").Some? then Chars(ToJson(Get(fields, "const").value))
      else if HasEnum(fields) then [Group(Cats(LiteralsRs(Get(fields, "enum").value.items)))]
      else TypedRs(fields, depth)
  }

  function TypedRs(fields: seq<Field>, depth: nat): seq<Regex>
    requires depth <= MAX_DEPTH
    decreases MAX_DEPTH + 1 - depth, 2
  {
    match GetStr(fields, "type")
    case None => []
    case Some(ty) =>
      if ty == "string" then STRING_RS
      else if ty == "integer" then INTEGER_RS
      else if ty == "number" then NUMBER_RS
      else if ty == "boolean" then BOOL_RS
      else if ty == "null" then Chars("null")
      else if ty == "array" then ArraySchemaRs(fields, depth)
      else ObjectSchemaRs(fields, depth)
  }

  function ArraySchemaRs(fields: seq<Field>, depth: nat): seq<Regex>
    requires depth <= MAX_DEPTH
    decreases MAX_DEPTH + 1 - depth, 1
  {
    var min, max := Default(GetU64(fields, "minItems"), 0), GetU64(fields, "maxItems");
    if Get(fields, "items").None? || (max.Some? && max.value < min) then []
    else BoundedRs(SchemaRs(Get(fields, "items").value, depth + 1), min, max)
  }

  function BoundedRs(rs: seq<Regex>, min: nat, max: Option<nat>): seq<Regex>
    requires max.Some? ==> min <= max.value
  {
    if max == Some(0) then [Chr('[')] + (SP_RS + [Chr(']')]) else BracketRs('[', ArrayRs(rs, min, max), ']')
  }

  function ObjectSchemaRs(fields: seq<Field>, depth: nat): seq<Regex>
    requires depth <= MAX_DEPTH
    decreases MAX_DEPTH + 1 - depth, 1
  {
    if !HasProperties(fields) then AnyObjectRs(BareDepth(depth))
    else
      var props := Get(fields, "properties").value.fields;
      if props == [] then [Chr('{')] + (SP_RS + [Chr('}')])
      else BracketRs('{', JoinRs(PropsRs(props, depth), |props|), '}')
  }

  function PropsRs(props: seq<Field>, depth: nat): (rss: seq<seq<Regex>>)
    requires depth <= MAX_DEPTH
    ensures |rss| == |props|
    ensures forall i :: 0 <= i < |props| ==> rss[i] == MemberRs(KeyRs(props[i].key), SchemaRs(props[i].value, depth + 1))
    decreases MAX_DEPTH + 1 - depth, 0
  {
    seq(|props|, i requires 0 <= i < |props| => MemberRs(KeyRs(props[i].key), SchemaRs(props[i].value, depth + 1)))
  }

  /** A pattern text that parses, wherever it is spliced, to the given pieces. */
  ghost predicate Splices(p: string, rs: seq<Regex>) {
    Frag(p, rs) && Clean(p)
  }

  lemma {:induction false} LiteralSplices(v: Value)
    ensures Splices(Literal(v), Chars(ToJson(v)))
  {
    FragText(ToJson(v));
  }

  lemma KeySplices(key: string)
    ensures Splices(KeyText(key), KeyRs(key))
  {
    FragLetter('"');
    FragText(key);
    FragCat(EscText(key), Chars(key), "\"", [Chr('"')]);
    FragCat("\"", [Chr('"')], EscText(key) + "\"", Chars(key) + [Chr('"')]);
  }

  lemma EnumSplices(vals: seq<Value>)
    requires vals != []
    ensures Splices("(" + Bars(Literals(vals)) + ")", [Group(Cats(LiteralsRs(vals)))])
  {
    forall i | 0 <= i < |vals| ensures Frag(Literals(vals)[i], LiteralsRs(vals)[i]) {
      LiteralSplices(vals[i]);
    }
    GroupAlone(Literals(vals), LiteralsRs(vals));
  }

  lemma {:induction false} CopiesSplice(item: string, rs: seq<Regex>, n: nat)
    requires Splices(item, rs) && 1 <= n
    ensures Splices(JoinTo(Copies(item, n), n), JoinRs(Copies(rs, n), n))
  {
    JoinFrag(Copies(item, n), Copies(rs, n), n);
  }

  lemma BodySplices(item: string, rs: seq<Regex>, min: nat, max: Option<nat>)
    requires Splices(item, rs) && (max.Some? ==> min <= max.value && 0 < max.value)
    ensures Frag(ArrayBody(item, min, max), ArrayRs(rs, min, max)) && Clean(ArrayBody(item, min, max))
  {
    if max.None? {
      if min == 0 {
        ListFrag(item, rs);
      } else {
        CopiesSplice(item, rs, min);
        MoreFrag(item, rs);
        FragCat(JoinTo(Copies(item, min), min), JoinRs(Copies(rs, min), min), MoreText(item), [MoreR(rs)]);
      }
    } else {
      PartsSplice(item, rs, Max(min, 1), max.value);
      var alt := "(" + Bars(Parts(item, Max(min, 1), max.value)) + ")";
      var group := Group(Cats(PartsRs(rs, Max(min, 1), max.value)));
      FragSingle(alt, [group], "?", Opt(Cat([group])));
    }
  }

  lemma PartsSplice(item: string, rs: seq<Regex>, lo: nat, hi: nat)
    requires Splices(item, rs) && 1 <= lo <= hi
    ensures Frag("(" + Bars(Parts(item, lo, hi)) + ")", [Group(Cats(PartsRs(rs, lo, hi)))])
  {
    forall i | 0 <= i < hi + 1 - lo ensures Frag(Parts(item, lo, hi)[i], PartsRs(rs, lo, hi)[i]) {
      CopiesSplice(item, rs, lo + i);
    }
    GroupAlone(Parts(item, lo, hi), PartsRs(rs, lo, hi));
  }

  lemma EmptySplices(open: char, close: char)
    ensures Splices(EscChar(open) + (SP + EscChar(close)), [Chr(open)] + (SP_RS + [Chr(close)]))
  {
    SpFrag();
    FragLetter(open);
    FragLetter(close);
    FragCat(SP, SP_RS, EscChar(close), [Chr(close)]);
    FragCat(EscChar(open), [Chr(open)], SP + EscChar(close), SP_RS + [Chr(close)]);
  }

  /** A schema's pattern may be spliced anywhere and parses to its pieces. */
  lemma {:induction false} SchemaSplices(schema: Value, depth: nat)
    requires Strict(schema, depth)
    ensures Splices(PatternOf(schema, depth), SchemaRs(schema, depth))
    decreases MAX_DEPTH + 1 - depth, 2
  {
    CompilesIff(schema, depth);
    hide Supported, FirstUnsupported;
    var fields := schema.fields;
    if Get(fields, "const").Some? {
      LiteralSplices(Get(fields, "const").value);
    } else if HasEnum(fields) {
      EnumSplices(Get(fields, "enum").value.items);
    } else {
      TypedSplices(fields, depth);
    }
  }

  lemma {:induction false} TypedSplices(fields: seq<Field>, depth: nat)
    requires depth <= MAX_DEPTH && CompileTyped(fields, depth).Ok? && StrictTyped(fields, depth)
    ensures Splices(CompileTyped(fields, depth).value, TypedRs(fields, depth))
    decreases MAX_DEPTH + 1 - depth, 1
  {
    StringFrag();
    IntegerFrag();
    NumberFrag();
    BoolFrag();
    WordFrag("null");
    var ty := GetStr(fields, "type").value;
    if ty == "array" {
      ArraySplices(fields, depth);
    } else if ty == "object" {
      ObjectSplices(fields, depth);
    }
  }

  lemma {:induction false} ArraySplices(fields: seq<Field>, depth: nat)
    requires depth <= MAX_DEPTH && CompileArrayOf(fields, depth).Ok? && Strict(Get(fields, "items").value, depth + 1)
    ensures Splices(CompileArrayOf(fields, depth).value, ArraySchemaRs(fields, depth))
    decreases MAX_DEPTH + 1 - depth, 0
  {
    var items := Get(fields, "items").value;
    var min, max := Default(GetU64(fields, "minItems"), 0), GetU64(fields, "maxItems");
    SchemaSplices(items, depth + 1);
    BoundedSplices(PatternOf(items, depth + 1), SchemaRs(items, depth + 1), min, max);
  }

  lemma BoundedSplices(item: string, rs: seq<Regex>, min: nat, max: Option<nat>)
    requires Splices(item, rs) && (max.Some? ==> min <= max.value)
    ensures Splices(ArrayText(item, min, max), BoundedRs(rs, min, max))
  {
    if max == Some(0) {
      EmptySplices('[', ']');
    } else {
      BodySplices(item, rs, min, max);
      BracketFrag('[', ArrayBody(item, min, max), ArrayRs(rs, min, max), ']');
    }
  }

  lemma {:induction false} ObjectSplices(fields: seq<Field>, depth: nat)
    requires depth <= MAX_DEPTH && CompileObjectOf(fields, depth).Ok?
    requires HasProperties(fields) ==> StrictProps(Get(fields, "properties").value.fields, depth)
    ensures Splices(CompileObjectOf(fields, depth).value, ObjectSchemaRs(fields, depth))
    decreases MAX_DEPTH + 1 - depth, 0
  {
    if !HasProperties(fields) {
      AnyObjectFrag(BareDepth(depth));
    } else {
      var props := Get(fields, "properties").value.fields;
      if props == [] {
        EmptySplices('{', '}');
      } else {
        PropsSplice(props, depth);
        var pairs := PairsOf(props, |props|, depth).value;
        BracketFrag('{', JoinTo(pairs, |props|), JoinRs(PropsRs(props, depth), |props|), '}');
      }
    }
  }

  lemma {:induction false} PropsSplice(props: seq<Field>, depth: nat)
    requires depth <= MAX_DEPTH && props != [] && PairsOf(props, |props|, depth).Ok? && StrictProps(props, depth)
    ensures Splices(JoinTo(PairsOf(props, |props|, depth).value, |props|), JoinRs(PropsRs(props, depth), |props|))
    decreases MAX_DEPTH - depth, 4
  {
    var pairs, rss := PairsOf(props, |props|, depth).value, PropsRs(props, depth);
    forall i | 0 <= i < |props| ensures Splices(pairs[i], rss[i]) {
      PairsAre(props, |props|, depth, i);
      PropSplices(props[i].key, props[i].value, depth);
    }
    JoinFrag(pairs, rss, |props|);
  }

  lemma {:induction false} PropSplices(key: string, v: Value, depth: nat)
    requires depth <= MAX_DEPTH && Strict(v, depth + 1)
    ensures Splices(MemberText(KeyText(key), PatternOf(v, depth + 1)), MemberRs(KeyRs(key), SchemaRs(v, depth + 1)))
    decreases MAX_DEPTH - depth, 3
  {
    SchemaSplices(v, depth + 1);
    KeySplices(key);
    MemberFrag(KeyText(key), KeyRs(key), PatternOf(v, depth + 1), SchemaRs(v, depth + 1));
  }

  lemma {:induction false} PairsAre(props: seq<Field>, n: nat, depth: nat, i: nat)
    requires depth <= MAX_DEPTH && i < n <= |props| && PairsOf(props, n, depth).Ok?
    ensures Supported(props[i].value, depth + 1)
    ensures PairsOf(props, n, depth).value[i] == MemberText(KeyText(props[i].key), PatternOf(props[i].value, depth + 1))
  {
    PairsCompile(props, n, depth);
    hide Supported;
    if i < n - 1 {
      PairsAre(props, n - 1, depth, i);
    }
  }

  // ---------------------------------------------------------------- what compiled schemas match

  lemma KeyMatches(key: string)
    ensures Matches(KeyRs(key), KeyLang(key))
  {
    var text := "\"" + (key + "\"");
    assert KeyRs(key) == Chars(text);
    forall w ensures InSeq(KeyRs(key), w) <==> KeyLang(key)(w) {
      InChars(text, w);
    }
  }

  lemma EnumMatches(vals: seq<Value>, w: string)
    requires vals != []
    ensures InSeq([Group(Cats(LiteralsRs(vals)))], w) <==> exists i :: 0 <= i < |vals| && w == ToJson(vals[i])
  {
    InGroup(LiteralsRs(vals), w);
    forall i | 0 <= i < |vals| ensures InSeq(LiteralsRs(vals)[i], w) <==> w == ToJson(vals[i]) {
      InChars(ToJson(vals[i]), w);
    }
  }

  lemma {:induction false} CopiesMatch(rs: seq<Regex>, langs: Langs, n: nat, w: string)
    requires Denotes(rs, langs, 0) && Uniform(langs) && 1 <= n
    ensures InSeq(JoinRs(Copies(rs, n), n), w) <==> Joined(langs, n, w)
  {
    forall i | 0 <= i < n ensures Denotes(Copies(rs, n)[i], langs, i) {
      forall u ensures InSeq(rs, u) <==> langs(i, u) {
        assert InSeq(rs, u) <==> langs(0, u);
      }
    }
    JoinLang(Copies(rs, n), langs, n, w);
  }

  /** The array body matches exactly the lists within the bounds, in all four cases. */
  lemma BodyMatches(rs: seq<Regex>, langs: Langs, min: nat, max: Option<nat>, w: string)
    requires Denotes(rs, langs, 0) && Uniform(langs) && (max.Some? ==> min <= max.value && 0 < max.value)
    ensures InSeq(ArrayRs(rs, min, max), w) <==> (min == 0 && w == "") || CountWithin(langs, Max(min, 1), max, w)
  {
    if max.None? {
      assert CountWithin(langs, Max(min, 1), max, w) <==> JoinedFrom(langs, Max(min, 1), w) by {
        if m: nat :| Max(min, 1) <= m && Joined(langs, m, w) {
        }
      }
      if min == 0 {
        ListLang(rs, langs, w);
      } else {
        forall u ensures InSeq(JoinRs(Copies(rs, min), min), u) <==> Joined(langs, min, u) {
          CopiesMatch(rs, langs, min, u);
        }
        MoreLang(JoinRs(Copies(rs, min), min), rs, langs, min, w);
      }
    } else {
      PartsMatch(rs, langs, Max(min, 1), max.value, w);
      var alt := Group(Cats(PartsRs(rs, Max(min, 1), max.value)));
      InSeqOne(Opt(Cat([alt])), w);
      InCat([alt], w);
    }
  }

  lemma PartsMatch(rs: seq<Regex>, langs: Langs, lo: nat, hi: nat, w: string)
    requires Denotes(rs, langs, 0) && Uniform(langs) && 1 <= lo <= hi
    ensures InSeq([Group(Cats(PartsRs(rs, lo, hi)))], w) <==> CountWithin(langs, lo, Some(hi), w)
  {
    var rss := PartsRs(rs, lo, hi);
    InGroup(rss, w);
    forall i | 0 <= i < |rss| ensures InSeq(rss[i], w) <==> Joined(langs, lo + i, w) {
      CopiesMatch(rs, langs, lo + i, w);
    }
    if i :| 0 <= i < |rss| && InSeq(rss[i], w) {
      assert Joined(langs, lo + i, w);
    }
    if n: nat :| lo <= n <= hi && Joined(langs, n, w) {
      assert InSeq(rss[n - lo], w);
    }
  }

  /** A text between two brackets. */
  lemma BetweenBrackets(open: char, close: char, s: string, w: string)
    requires w == [open] + (s + [close])
    ensures |w| >= 2 && w[0] == open && w[|w| - 1] == close && w[1..|w| - 1] == s
  {
  }

  lemma EmptyMatches(open: char, close: char, w: string)
    ensures InSeq([Chr(open)] + (SP_RS + [Chr(close)]), w)
            <==> |w| >= 2 && w[0] == open && w[|w| - 1] == close && IsSpace(w[1..|w| - 1])
  {
    if InSeq([Chr(open)] + (SP_RS + [Chr(close)]), w) {
      var v := ChrSplit(open, SP_RS + [Chr(close)], w);
      var s, z := SpSplit([Chr(close)], v);
      InSeqOne(Chr(close), z);
      BetweenBrackets(open, close, s, w);
    }
    if |w| >= 2 && w[0] == open && w[|w| - 1] == close && IsSpace(w[1..|w| - 1]) {
      InSeqOne(Chr(close), [close]);
      SpJoin(w[1..|w| - 1], [Chr(close)], [close]);
      ChrJoin(open, SP_RS + [Chr(close)], w[1..|w| - 1] + [close]);
      assert w == [open] + (w[1..|w| - 1] + [close]);
    }
  }

  /** A schema's pieces match exactly its strict documents. */
  lemma {:induction false} SchemaMatches(schema: Value, depth: nat, w: string)
    requires Strict(schema, depth)
    ensures InSeq(SchemaRs(schema, depth), w) <==> Doc(schema, depth, w)
    decreases MAX_DEPTH + 1 - depth, 2
  {
    CompilesIff(schema, depth);
    hide Supported, FirstUnsupported;
    var fields := schema.fields;
    if Get(fields, "const").Some? {
      InChars(ToJson(Get(fields, "const").value), w);
    } else if HasEnum(fields) {
      EnumMatches(Get(fields, "enum").value.items, w);
    } else {
      TypedMatches(fields, depth, w);
    }
  }

  lemma {:induction false} TypedMatches(fields: seq<Field>, depth: nat, w: string)
    requires depth <= MAX_DEPTH && CompileTyped(fields, depth).Ok? && StrictTyped(fields, depth)
    ensures InSeq(TypedRs(fields, depth), w) <==> DocTyped(fields, depth, w)
    decreases MAX_DEPTH + 1 - depth, 1
  {
    StringLang(w);
    IntegerLang(w);
    NumberLang(w);
    BoolLang(w);
    InChars("null", w);
    var ty := GetStr(fields, "type").value;
    if ty == "array" {
      CompiledBounds(fields, depth);
      ArrayMatches(fields, depth, w);
    } else if ty == "object" {
      ObjectMatches(fields, depth, w);
    }
  }

  /** The bounds of an array schema that compiles are in order. */
  predicate BoundsOk(fields: seq<Field>) {
    Get(fields, "items").Some?
    && (GetU64(fields, "maxItems").Some? ==> Default(GetU64(fields, "minItems"), 0) <= GetU64(fields, "maxItems").value)
  }

  lemma {:induction false} CompiledBounds(fields: seq<Field>, depth: nat)
    requires depth <= MAX_DEPTH && CompileArrayOf(fields, depth).Ok?
    ensures BoundsOk(fields)
  {
  }

  lemma {:induction false} ArrayMatches(fields: seq<Field>, depth: nat, w: string)
    requires depth <= MAX_DEPTH && BoundsOk(fields) && Strict(Get(fields, "items").value, depth + 1)
    ensures InSeq(ArraySchemaRs(fields, depth), w) <==> DocArray(fields, depth, w)
    decreases MAX_DEPTH + 1 - depth, 0
  {
    var items := Get(fields, "items").value;
    var min, max := Default(GetU64(fields, "minItems"), 0), GetU64(fields, "maxItems");
    BoundedMatches(items, depth, min, max, w);
  }

  lemma {:induction false} BoundedMatches(items: Value, depth: nat, min: nat, max: Option<nat>, w: string)
    requires depth <= MAX_DEPTH && Strict(items, depth + 1) && (max.Some? ==> min <= max.value)
    ensures InSeq(BoundedRs(SchemaRs(items, depth + 1), min, max), w) <==> DocItems(items, depth, min, max, w)
    decreases MAX_DEPTH - depth, 5
  {
    if max == Some(0) {
      EmptyMatches('[', ']', w);
    } else {
      InnerMatches(items, depth, min, max);
      BracketLang('[', ArrayRs(SchemaRs(items, depth + 1), min, max), ']', ArrayInner(items, depth, min, max), w);
    }
  }

  lemma {:induction false} InnerMatches(items: Value, depth: nat, min: nat, max: Option<nat>)
    requires depth <= MAX_DEPTH && Strict(items, depth + 1) && (max.Some? ==> min <= max.value && 0 < max.value)
    ensures Matches(ArrayRs(SchemaRs(items, depth + 1), min, max), ArrayInner(items, depth, min, max))
    decreases MAX_DEPTH - depth, 4
  {
    var rs, langs := SchemaRs(items, depth + 1), ItemLangs(items, depth);
    forall u ensures InSeq(rs, u) <==> langs(0, u) {
      SchemaMatches(items, depth + 1, u);
    }
    forall u ensures InSeq(ArrayRs(rs, min, max), u) <==> ArrayInner(items, depth, min, max)(u) {
      BodyMatches(rs, langs, min, max, u);
    }
  }

  lemma {:induction false} ObjectMatches(fields: seq<Field>, depth: nat, w: string)
    requires depth <= MAX_DEPTH && CompileObjectOf(fields, depth).Ok?
    requires HasProperties(fields) ==> StrictProps(Get(fields, "properties").value.fields, depth)
    ensures InSeq(ObjectSchemaRs(fields, depth), w) <==> DocObject(fields, depth, w)
    decreases MAX_DEPTH + 1 - depth, 0
  {
    if !HasProperties(fields) {
      AnyObjectMatches(BareDepth(depth), w);
    } else {
      var props := Get(fields, "properties").value.fields;
      if props == [] {
        EmptyMatches('{', '}', w);
      } else {
        PropsMatch(props, depth);
        BracketLang('{', JoinRs(PropsRs(props, depth), |props|), '}', ObjectInner(props, depth), w);
      }
    }
  }

  lemma {:induction false} PropsMatch(props: seq<Field>, depth: nat)
    requires depth <= MAX_DEPTH && props != [] && StrictProps(props, depth)
    ensures Matches(JoinRs(PropsRs(props, depth), |props|), ObjectInner(props, depth))
    decreases MAX_DEPTH - depth, 4
  {
    var rss := PropsRs(props, depth);
    forall i | 0 <= i < |props| ensures Denotes(rss[i], PropLangs(props, depth), i) {
      PropMatches(props, depth, i);
    }
    forall u ensures InSeq(JoinRs(rss, |props|), u) <==> ObjectInner(props, depth)(u) {
      JoinLang(rss, PropLangs(props, depth), |props|, u);
    }
  }

  lemma {:induction false} PropMatches(props: seq<Field>, depth: nat, i: nat)
    requires depth <= MAX_DEPTH && i < |props| && Strict(props[i].value, depth + 1)
    ensures Denotes(PropsRs(props, depth)[i], PropLangs(props, depth), i)
    decreases MAX_DEPTH - depth, 3
  {
    var key, v := props[i].key, props[i].value;
    KeyMatches(key);
    forall u ensures InSeq(SchemaRs(v, depth + 1), u) <==> DocLang(v, depth)(u) {
      SchemaMatches(v, depth + 1, u);
    }
    forall u ensures InSeq(PropsRs(props, depth)[i], u) <==> PropLangs(props, depth)(i, u) {
      MemberLang(KeyRs(key), KeyLang(key), SchemaRs(v, depth + 1), DocLang(v, depth), u);
    }
  }

  /** The pattern compiled from a schema parses, and matches exactly the schema's strict documents. */
  lemma {:induction false} SchemaSound(schema: Value, w: string)
    requires Strict(schema, 0)
    ensures var p := Parse(PatternOf(schema, 0));
            p.Some? && (In(p.value, w) <==> Doc(schema, 0, w))
  {
    SchemaSplices(schema, 0);
    FragParses(PatternOf(schema, 0), SchemaRs(schema, 0));
    InCat(SchemaRs(schema, 0), w);
    SchemaMatches(schema, 0, w);
  }

  // ---------------------------------------------------------------- tool calls

  /** A call of the named tool with the given arguments. */
  ghost predicate ToolCall(name: string, params: Value, w: string) {
    Bracketed('{', '}', CallInner(name, params), w)
  }

  ghost function CallInner(name: string, params: Value): string -> bool {
    x => Joined(CallLangs(name, params), 2, x)
  }

  ghost function CallLangs(name: string, params: Value): Langs {
    (i: nat, y: string) => if i == 0 then Member(KeyLang("name"), TextLang(ToJson(Str(name))), y)
                           else Member(KeyLang("arguments"), ArgsLang(params), y)
  }

  ghost function TextLang(t: string): string -> bool {
    w => w == t
  }

  ghost function ArgsLang(params: Value): string -> bool {
    w => Doc(params, 0, w)
  }

  function EnvelopeRs(name: string, params: Value): seq<Regex> {
    BracketRs('{', JoinRs(CallRss(name, params), 2), '}')
  }

  function CallRss(name: string, params: Value): seq<seq<Regex>> {
    [MemberRs(KeyRs("name"), Chars(ToJson(Str(name)))), MemberRs(KeyRs("arguments"), SchemaRs(params, 0))]
  }

  function EnvelopesRs(tools: seq<(string, Value)>): (rss: seq<seq<Regex>>)
    ensures |rss| == |tools| && forall i :: 0 <= i < |tools| ==> rss[i] == EnvelopeRs(tools[i].0, tools[i].1)
  {
    seq(|tools|, i requires 0 <= i < |tools| => EnvelopeRs(tools[i].0, tools[i].1))
  }

  lemma PlainKey(key: string)
    requires forall i :: 0 <= i < |key| ==> key[i] !in META
    ensures Splices("\"" + (key + "\""), KeyRs(key))
  {
    KeySplices(key);
    PlainText(key);
  }

  lemma {:induction false} EnvelopeSplices(name: string, params: Value)
    requires Strict(params, 0)
    ensures Splices(EnvelopeText(name, PatternOf(params, 0)), EnvelopeRs(name, params))
  {
    var args := PatternOf(params, 0);
    CallSplices(name, params);
    JoinFrag(CallTexts(name, args), CallRss(name, params), 2);
    BracketFrag('{', JoinTo(CallTexts(name, args), 2), JoinRs(CallRss(name, params), 2), '}');
  }

  lemma {:induction false} CallSplices(name: string, params: Value)
    requires Strict(params, 0)
    ensures CleanFrags(CallTexts(name, PatternOf(params, 0)), CallRss(name, params))
  {
    SchemaSplices(params, 0);
    LiteralSplices(Str(name));
    TwoMembers(Literal(Str(name)), Chars(ToJson(Str(name))), PatternOf(params, 0), SchemaRs(params, 0));
  }

  lemma TwoMembers(lit: string, lrs: seq<Regex>, args: string, ars: seq<Regex>)
    requires Splices(lit, lrs) && Splices(args, ars)
    ensures CleanFrags([MemberText(NAME_KEY, lit), MemberText(ARGUMENTS_KEY, args)],
                       [MemberRs(KeyRs("name"), lrs), MemberRs(KeyRs("arguments"), ars)])
  {
    CallKey("name", lit, lrs);
    CallKey("arguments", args, ars);
  }

  lemma CallKey(key: string, value: string, rs: seq<Regex>)
    requires Splices(value, rs) && forall i :: 0 <= i < |key| ==> key[i] !in META
    ensures Splices(MemberText("\"" + (key + "\""), value), MemberRs(KeyRs(key), rs))
  {
    PlainKey(key);
    MemberFrag("\"" + (key + "\""), KeyRs(key), value, rs);
  }

  lemma {:induction false} EnvelopeMatches(name: string, params: Value, w: string)
    requires Strict(params, 0)
    ensures InSeq(EnvelopeRs(name, params), w) <==> ToolCall(name, params, w)
  {
    var rss, langs := CallRss(name, params), CallLangs(name, params);
    KeyMatches("name");
    KeyMatches("arguments");
    forall u ensures InSeq(Chars(ToJson(Str(name))), u) <==> TextLang(ToJson(Str(name)))(u) {
      InChars(ToJson(Str(name)), u);
    }
    forall u ensures InSeq(SchemaRs(params, 0), u) <==> ArgsLang(params)(u) {
      SchemaMatches(params, 0, u);
    }
    forall u ensures (InSeq(rss[0], u) <==> langs(0, u)) && (InSeq(rss[1], u) <==> langs(1, u)) {
      MemberLang(KeyRs("name"), KeyLang("name"), Chars(ToJson(Str(name))), TextLang(ToJson(Str(name))), u);
      MemberLang(KeyRs("arguments"), KeyLang("arguments"), SchemaRs(params, 0), ArgsLang(params), u);
    }
    forall u ensures InSeq(JoinRs(rss, 2), u) <==> CallInner(name, params)(u) {
      JoinLang(rss, langs, 2, u);
    }
    BracketLang('{', JoinRs(rss, 2), '}', CallInner(name, params), w);
  }

  lemma {:induction false} EnvelopesAre(tools: seq<(string, Value)>, n: nat, i: nat)
    requires i < n <= |tools| && EnvelopesOf(tools, n).Ok?
    ensures Supported(tools[i].1, 0)
    ensures EnvelopesOf(tools, n).value[i] == EnvelopeText(tools[i].0, PatternOf(tools[i].1, 0))
  {
    hide EnvelopesOf, CompileOf, EnvelopeText, Supported, PatternOf;
    EnvelopeLast(tools, n);
    if i < n - 1 {
      EnvelopesAre(tools, n - 1, i);
    }
  }

  lemma EnvelopeLast(tools: seq<(string, Value)>, n: nat)
    requires 0 < n <= |tools| && EnvelopesOf(tools, n).Ok?
    ensures EnvelopesOf(tools, n - 1).Ok? && Supported(tools[n - 1].1, 0)
    ensures EnvelopesOf(tools, n).value == EnvelopesOf(tools, n - 1).value + [EnvelopeText(tools[n - 1].0, PatternOf(tools[n - 1].1, 0))]
  {
    hide EnvelopesOf, CompileOf, EnvelopeText, Supported, PatternOf;
    EnvelopesCompile(tools, n);
    EnvelopesCompile(tools, n - 1);
    EnvelopesNext(tools, n - 1, EnvelopesOf(tools, n - 1).value);
  }

  /** The tool-call pattern parses, and matches exactly the calls of one of the tools. */
  lemma {:induction false} ToolCallsSound(tools: seq<(string, Value)>, w: string)
    requires tools != [] && forall i :: 0 <= i < |tools| ==> Strict(tools[i].1, 0)
    ensures ToolEnvelopeOf(tools).Ok?
    ensures var p := Parse(ToolEnvelopeOf(tools).value);
            p.Some? && (In(p.value, w) <==> exists i :: 0 <= i < |tools| && ToolCall(tools[i].0, tools[i].1, w))
  {
    ToolsCompileIff(tools);
    hide Supported;
    var alts, rss := EnvelopesOf(tools, |tools|).value, EnvelopesRs(tools);
    forall i | 0 <= i < |tools| ensures Frag(alts[i], rss[i]) && (InSeq(rss[i], w) <==> ToolCall(tools[i].0, tools[i].1, w)) {
      EnvelopesAre(tools, |tools|, i);
      EnvelopeSplices(tools[i].0, tools[i].1);
      EnvelopeMatches(tools[i].0, tools[i].1, w);
    }
    GroupAlone(alts, rss);
    var group := [Group(Cats(rss))];
    FragParses(ToolEnvelopeOf(tools).value, group);
    InCat(group, w);
    InGroup(rss, w);
  }

  // ---------------------------------------------------------------- keys

  /** A character JSON writes as it is. */
  predicate PlainChar(c: char) {
    c != '"' && c != '\\' && c >= ' '
  }

  lemma {:induction false} JsonCharsLength(s: string)
    ensures |JsonChars(s)| >= |s|
    ensures JsonChars(s) == s <==> forall i :: 0 <= i < |s| ==> PlainChar(s[i])
    ensures (exists i :: 0 <= i < |s| && !PlainChar(s[i])) ==> |JsonChars(s)| > |s|
  {
    if s != "" {
      JsonCharsLength(s[1..]);
      assert s == [s[0]] + s[1..];
      assert PlainChar(s[0]) <==> JsonChar(s[0]) == [s[0]];
      if JsonChars(s) == s {
        assert |JsonChar(s[0])| == 1;
        assert JsonChars(s)[1..] == JsonChars(s[1..]);
      }
    }
  }

  /**
   Property names are written between quotes without JSON escaping. That is their JSON form exactly
   when they contain no quote, backslash or control character.
   */
  lemma KeyIsJsonIff(key: string)
    ensures "\"" + (key + "\"") == ToJson(Str(key)) <==> forall i :: 0 <= i < |key| ==> PlainChar(key[i])
  {
    JsonCharsLength(key);
    var a, b := "\"" + (key + "\""), ToJson(Str(key));
    if a == b {
      assert |key| == |JsonChars(key)|;
      assert a[1..1 + |key|] == key && b[1..1 + |key|] == JsonChars(key);
    }
  }

  /** A key with a quote in it comes out as text that is no JSON string. */
  lemma QuotedKeyFails()
    ensures KeyLang("a\"b")("\"a\"b\"") && !IsString("\"a\"b\"")
  {
    var w := "\"a\"b\"";
    assert w[1..|w| - 1] == "a\"b";
    assert "a\"b"[1..] == "\"b";
  }
}
