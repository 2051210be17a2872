/** Strict documents are JSON. */
module JsonDocuments {
  import opened Wrappers
  import opened JsonTokens
  import opened JsonLists
  import opened JsonSchema
  import opened JsonSchemaSound

  /** A JSON text, in the grammar the compiler uses: at most one space around each separator. */
  ghost predicate Json(w: string) {
    exists d: nat :: AnyDoc(d, w)
  }

  lemma {:induction false} AnyDocUp(d: nat, e: nat, w: string)
    requires d <= e && AnyDoc(d, w)
    ensures AnyDoc(e, w)
    decreases e - d
  {
    if d < e {
      AnyDocDeeper(d, w);
      AnyDocUp(d + 1, e, w);
    }
  }

  // ---------------------------------------------------------------- lists whose elements nest differently

  /** Languages that grow with the nesting bound. */
  type Family = nat -> Langs

  ghost predicate Grows(fam: Family) {
    forall d: nat, e: nat, i: nat, y :: d <= e && fam(d)(i, y) ==> fam(e)(i, y)
  }

  ghost predicate Reached(fam: Family, i: nat, y: string) {
    exists d: nat :: fam(d)(i, y)
  }

  /** One bound serves a whole list. */
  lemma {:induction false} OneBound(fam: Family, langs: Langs, n: nat, x: string) returns (d: nat)
    requires Grows(fam) && 1 <= n && Joined(langs, n, x)
    requires forall i: nat, y :: i < n && langs(i, y) ==> Reached(fam, i, y)
    ensures Joined(fam(d), n, x)
    decreases n
  {
    if n == 1 {
      assert Reached(fam, 0, x);
      d :| fam(d)(0, x);
    } else {
      var u, s, v := JoinedLess(langs, n, x);
      var d1 := OneBound(fam, langs, n - 1, u);
      assert Reached(fam, n - 1, v);
      var d2: nat :| fam(d2)(n - 1, v);
      d := Max(d1, d2);
      JoinedWider(fam(d1), fam(d), n - 1, u);
      JoinedMore(fam(d), n - 1, u, s, v);
    }
  }

  ghost function Values(): Family {
    (d: nat) => AnyLangs(d)
  }

  ghost function Members(): Family {
    (d: nat) => AnyMembers(d)
  }

  lemma ValuesGrow()
    ensures Grows(Values())
  {
    forall d: nat, e: nat, i: nat, y | d <= e && Values()(d)(i, y) ensures Values()(e)(i, y) {
      AnyDocUp(d, e, y);
    }
  }

  lemma MembersGrow()
    ensures Grows(Members())
  {
    forall d: nat, e: nat, i: nat, y | d <= e && Members()(d)(i, y) ensures Members()(e)(i, y) {
      var k, s, t, v := MemberTake(StringTok(), AnyLang(d), y);
      AnyDocUp(d, e, v);
      MemberMake(StringTok(), AnyLang(e), k, s, t, v);
    }
  }

  /** A bracketed list of JSON texts. */
  lemma ArrayJson(inner: string -> bool, langs: Langs, w: string)
    requires Bracketed('[', ']', inner, w)
    requires forall x :: inner(x) ==> x == "" || JoinedFrom(langs, 1, x)
    requires forall i: nat, y :: langs(i, y) ==> Json(y)
    ensures Json(w)
  {
    var s, x, t := BracketTake('[', ']', inner, w);
    var d: nat := 0;
    if x != "" {
      ValuesGrow();
      var n: nat :| 1 <= n && Joined(langs, n, x);
      forall i: nat, y | i < n && langs(i, y) ensures Reached(Values(), i, y) {
        var e: nat :| AnyDoc(e, y);
        assert Values()(e)(i, y);
      }
      d := OneBound(Values(), langs, n, x);
    }
    assert AnyArrayInner(d)(x);
    BracketMake('[', ']', AnyArrayInner(d), s, x, t);
    assert AnyDoc(d + 1, w);
  }

  /** A bracketed list of members whose keys are strings and whose values are JSON. */
  lemma ObjectJson(inner: string -> bool, langs: Langs, w: string)
    requires Bracketed('{', '}', inner, w)
    requires forall x :: inner(x) ==> x == "" || JoinedFrom(langs, 1, x)
    requires forall i: nat, y :: langs(i, y) ==> Reached(Members(), i, y)
    ensures Json(w)
  {
    var s, x, t := BracketTake('{', '}', inner, w);
    var d: nat := 0;
    if x != "" {
      MembersGrow();
      var n: nat :| 1 <= n && Joined(langs, n, x);
      d := OneBound(Members(), langs, n, x);
    }
    assert AnyObjectInner(d)(x);
    BracketMake('{', '}', AnyObjectInner(d), s, x, t);
    assert AnyDoc(d + 1, w);
  }

  lemma MemberJson(key: string -> bool, value: string -> bool, i: nat, y: string)
    requires Member(key, value, y)
    requires forall k :: key(k) ==> IsString(k)
    requires forall v :: value(v) ==> Json(v)
    ensures Reached(Members(), i, y)
  {
    var k, s, t, v := MemberTake(key, value, y);
    var d: nat :| AnyDoc(d, v);
    MemberMake(StringTok(), AnyLang(d), k, s, t, v);
    assert Members()(d)(i, y);
  }

  // ---------------------------------------------------------------- serialised values

  /** Every number in the value is written as a JSON number. */
  ghost predicate NumbersOk(v: Value)
    decreases v
  {
    match v
    case Num(text, _) => IsNumber(text)
    case Arr(items) => forall i :: 0 <= i < |items| ==> NumbersOk(items[i])
    case Obj(fields) => forall i :: 0 <= i < |fields| ==> NumbersOk(fields[i].value)
    case _ => true
  }

  /** The first n characters are one unit of a string: a plain character or an escape. */
  predicate LeadingUnit(w: string, n: nat) {
    || (n == 1 <= |w| && w[0] != '"' && w[0] != '\\')
    || (n == 2 <= |w| && w[0] == '\\' && w[1] in "\"\\/bfnrt")
    || (n == 6 <= |w| && w[0] == '\\' && w[1] == 'u' && HexRun(w[2..6]))
  }

  lemma BodyHead(w: string) returns (n: nat)
    requires IsBody(w) && w != ""
    ensures LeadingUnit(w, n) && 0 < n <= |w| && IsBody(w[n..])
  {
    n := if w[0] != '\\' then 1 else if |w| >= 2 && w[1] != 'u' then 2 else 6;
  }

  lemma {:induction false} BodyMake(w: string, n: nat)
    requires LeadingUnit(w, n) && IsBody(w[n..])
    ensures IsBody(w)
  {
  }

  lemma UnitConcat(a: string, b: string, n: nat)
    requires LeadingUnit(a, n)
    ensures LeadingUnit(a + b, n) && (a + b)[n..] == a[n..] + b
  {
    assert n == 6 ==> (a + b)[2..6] == a[2..6];
  }

  lemma {:induction false} BodyConcat(a: string, b: string)
    requires IsBody(a) && IsBody(b)
    ensures IsBody(a + b)
    decreases |a|
  {
    hide IsBody, LeadingUnit;
    if a == "" {
      assert a + b == b;
    } else {
      var n := BodyHead(a);
      BodyConcat(a[n..], b);
      UnitConcat(a, b, n);
      BodyMake(a + b, n);
    }
  }

  lemma JsonCharBody(c: char)
    ensures IsBody(JsonChar(c))
  {
    var w := JsonChar(c);
    if |w| == 6 {
      assert w[6..] == "" && HexRun(w[2..6]);
    } else if |w| == 2 {
      assert w[2..] == "";
    } else {
      assert w[1..] == "";
    }
  }

  lemma {:induction false} JsonCharsBody(s: string)
    ensures IsBody(JsonChars(s))
  {
    if s != "" {
      JsonCharBody(s[0]);
      JsonCharsBody(s[1..]);
      BodyConcat(JsonChar(s[0]), JsonChars(s[1..]));
    }
  }

  lemma {:induction false} StrJson(s: string)
    ensures IsString("\"" + JsonChars(s) + "\"")
  {
    JsonCharsBody(s);
    var w := "\"" + JsonChars(s) + "\"";
    assert w[1..|w| - 1] == JsonChars(s);
  }

  ghost function ItemTexts(items: seq<Value>): Langs {
    (i: nat, y: string) => i < |items| && y == ToJson(items[i])
  }

  ghost function FieldTexts(fields: seq<Field>): Langs {
    (i: nat, y: string) => i < |fields| && y == FieldText(JsonChars(fields[i].key), ToJson(fields[i].value))
  }

  /** A serialised member. */
  function FieldText(key: string, value: string): string {
    "\"" + key + "\":" + value
  }

  lemma FieldTextLast(before: string, key: string, value: string)
    ensures before + "\"" + key + "\":" + value == before + FieldText(key, value)
  {
    var q := "\"";
    assert before + q + key + "\":" + value == before + (q + key + "\":" + value);
  }

  ghost function ListOf(langs: Langs): string -> bool {
    x => x == "" || JoinedFrom(langs, 1, x)
  }

  lemma {:induction false} ItemsJoined(v: Value, n: nat)
    requires v.Arr? && 1 <= n <= |v.items|
    ensures Joined(ItemTexts(v.items), n, ItemsJson(v, n))
    decreases n
  {
    var y := ToJson(v.items[n - 1]);
    if n == 1 {
      assert ItemsJson(v, n) == y;
    } else {
      ItemsJoined(v, n - 1);
      JoinedMore(ItemTexts(v.items), n - 1, ItemsJson(v, n - 1), ",", y);
      assert ItemsJson(v, n) == ItemsJson(v, n - 1) + ("," + y);
    }
  }

  lemma FieldsLast(v: Value, n: nat)
    requires v.Obj? && 1 <= n <= |v.fields|
    ensures var y := FieldText(JsonChars(v.fields[n - 1].key), ToJson(v.fields[n - 1].value));
            FieldsJson(v, n) == if n == 1 then y else FieldsJson(v, n - 1) + ("," + y)
  {
    var key, value := JsonChars(v.fields[n - 1].key), ToJson(v.fields[n - 1].value);
    var y := FieldText(key, value);
    if n == 1 {
      FieldTextLast("", key, value);
      assert "" + y == y;
    } else {
      FieldTextLast(FieldsJson(v, n - 1) + ",", key, value);
      Assoc(FieldsJson(v, n - 1), ",", y);
    }
  }

  lemma {:induction false} FieldsJoined(v: Value, n: nat)
    requires v.Obj? && 1 <= n <= |v.fields|
    ensures Joined(FieldTexts(v.fields), n, FieldsJson(v, n))
    decreases n
  {
    hide FieldsJson, ToJson, JsonChars, FieldText;
    FieldsLast(v, n);
    if n > 1 {
      FieldsJoined(v, n - 1);
      var y := FieldText(JsonChars(v.fields[n - 1].key), ToJson(v.fields[n - 1].value));
      JoinedMore(FieldTexts(v.fields), n - 1, FieldsJson(v, n - 1), ",", y);
    }
  }

  lemma BracketTight(open: char, close: char, inner: string -> bool, x: string)
    requires inner(x)
    ensures Bracketed(open, close, inner, [open] + x + [close])
  {
    BracketMake(open, close, inner, "", x, "");
    assert [open] + x + [close] == [open] + ("" + (x + ("" + [close])));
  }

  lemma {:induction false} ItemsAreJson(v: Value)
    requires v.Arr? && forall i :: 0 <= i < |v.items| ==> Json(ToJson(v.items[i]))
    ensures Json(ToJson(v))
  {
    var langs := ItemTexts(v.items);
    forall i: nat, y | langs(i, y) ensures Json(y) {
    }
    if v.items != [] {
      ItemsJoined(v, |v.items|);
    }
    var x := ItemsJson(v, |v.items|);
    BracketTight('[', ']', ListOf(langs), x);
    ArrayJson(ListOf(langs), langs, ToJson(v));
  }

  lemma {:induction false} FieldsAreJson(v: Value)
    requires v.Obj? && forall i :: 0 <= i < |v.fields| ==> Json(ToJson(v.fields[i].value))
    ensures Json(ToJson(v))
  {
    var langs := FieldTexts(v.fields);
    forall i: nat, y | langs(i, y) ensures Reached(Members(), i, y) {
      FieldJson(v.fields[i].key, ToJson(v.fields[i].value), i, y);
    }
    if v.fields != [] {
      FieldsJoined(v, |v.fields|);
    }
    var x := FieldsJson(v, |v.fields|);
    BracketTight('{', '}', ListOf(langs), x);
    ObjectJson(ListOf(langs), langs, ToJson(v));
  }

  lemma TightMember(key: string, v: string)
    ensures FieldText(key, v) == "\"" + key + "\"" + ("" + (":" + ("" + v)))
  {
  }

  lemma {:induction false} FieldJson(key: string, v: string, i: nat, y: string)
    requires Json(v) && y == FieldText(JsonChars(key), v)
    ensures Reached(Members(), i, y)
  {
    StrJson(key);
    var k := "\"" + JsonChars(key) + "\"";
    var d: nat :| AnyDoc(d, v);
    MemberMake(StringTok(), AnyLang(d), k, "", "", v);
    TightMember(JsonChars(key), v);
    assert Members()(d)(i, y);
  }

  /** A serialised value is JSON. */
  lemma {:induction false} ValueJson(v: Value)
    requires NumbersOk(v)
    ensures Json(ToJson(v))
    decreases v
  {
    match v
    case Arr(items) =>
      forall i | 0 <= i < |items| ensures Json(ToJson(items[i])) {
        ValueJson(items[i]);
      }
      ItemsAreJson(v);
    case Obj(fields) =>
      forall i | 0 <= i < |fields| ensures Json(ToJson(fields[i].value)) {
        ValueJson(fields[i].value);
      }
      FieldsAreJson(v);
    case Str(s) =>
      StrJson(s);
      assert AnyDoc(0, ToJson(v));
    case _ =>
      assert AnyDoc(0, ToJson(v));
  }

  // ---------------------------------------------------------------- documents

  /** The key is a JSON string as it stands between the quotes. */
  ghost function BodyKey(): string -> bool {
    key => IsBody(key)
  }

  ghost function JsonLiteral(): Value -> bool {
    v => NumbersOk(v)
  }

  lemma IntegerIsNumber(w: string)
    requires IsInteger(w)
    ensures IsNumber(w)
  {
    assert w[..|w|] == w && w[|w|..] == "";
    assert NumberSplits(w, |w|, |w|);
  }

  lemma EmptyJson(w: string)
    requires |w| >= 2 && IsSpace(w[1..|w| - 1])
    requires (w[0] == '[' && w[|w| - 1] == ']') || (w[0] == '{' && w[|w| - 1] == '}')
    ensures Json(w)
  {
    var s := w[1..|w| - 1];
    assert w == [w[0]] + (s + ("" + ("" + [w[|w| - 1]])));
    if w[0] == '[' {
      BracketMake('[', ']', AnyArrayInner(0), s, "", "");
    } else {
      BracketMake('{', '}', AnyObjectInner(0), s, "", "");
    }
    assert AnyDoc(1, w);
  }

  lemma {:induction false} KeyJson(key: string, k: string)
    requires IsBody(key) && KeyLang(key)(k)
    ensures IsString(k)
  {
    assert k[1..|k| - 1] == key;
  }

  /**
   Strict documents are JSON: every text a schema admits is a JSON value, as long as its property keys
   are the insides of JSON strings and its literal numbers are JSON numbers.
   */
  lemma {:induction false} DocumentIsJson(schema: Value, depth: nat, w: string)
    requires Literally(schema, depth, BodyKey(), JsonLiteral()) && Doc(schema, depth, w)
    ensures Json(w)
    decreases MAX_DEPTH + 1 - depth, 2
  {
    var fields := schema.fields;
    if Get(fields, "const").Some? {
      ValueJson(Get(fields, "const").value);
    } else if HasEnum(fields) {
      var vals := Get(fields, "enum").value.items;
      var i :| 0 <= i < |vals| && w == ToJson(vals[i]);
      ValueJson(vals[i]);
    } else {
      TypedIsJson(fields, depth, w);
    }
  }

  lemma {:induction false} TypedIsJson(fields: seq<Field>, depth: nat, w: string)
    requires depth <= MAX_DEPTH && TypedLiterally(fields, depth, BodyKey(), JsonLiteral()) && DocTyped(fields, depth, w)
    ensures Json(w)
    decreases MAX_DEPTH + 1 - depth, 1
  {
    var ty := GetStr(fields, "type").value;
    if ty == "array" {
      ArrayIsJson(fields, depth, w);
    } else if ty == "object" {
      ObjectIsJson(fields, depth, w);
    } else {
      if ty == "integer" {
        IntegerIsNumber(w);
      }
      assert AnyDoc(0, w);
    }
  }

  lemma {:induction false} ArrayIsJson(fields: seq<Field>, depth: nat, w: string)
    requires depth <= MAX_DEPTH && Get(fields, "items").Some? && DocArray(fields, depth, w)
    requires Literally(Get(fields, "items").value, depth + 1, BodyKey(), JsonLiteral())
    ensures Json(w)
    decreases MAX_DEPTH + 1 - depth, 0
  {
    var items := Get(fields, "items").value;
    var min, max := MinItems(fields), MaxItems(fields);
    if max == Some(0) {
      EmptyJson(w);
    } else {
      var inner, langs := ArrayInner(items, depth, min, max), ItemLangs(items, depth);
      forall x | inner(x) ensures x == "" || JoinedFrom(langs, 1, x) {
      }
      forall i: nat, y | langs(i, y) ensures Json(y) {
        DocumentIsJson(items, depth + 1, y);
      }
      ArrayJson(inner, langs, w);
    }
  }

  lemma {:induction false} ObjectIsJson(fields: seq<Field>, depth: nat, w: string)
    requires depth <= MAX_DEPTH && DocObject(fields, depth, w)
    requires HasProperties(fields) ==> PropsLiterally(Get(fields, "properties").value.fields, depth, BodyKey(), JsonLiteral())
    ensures Json(w)
    decreases MAX_DEPTH + 1 - depth, 0
  {
    if !HasProperties(fields) {
      assert AnyDoc(BareDepth(depth) + 1, w);
    } else {
      var props := Get(fields, "properties").value.fields;
      if props == [] {
        EmptyJson(w);
      } else {
        var inner, langs := ObjectInner(props, depth), PropLangs(props, depth);
        forall x | inner(x) ensures x == "" || JoinedFrom(langs, 1, x) {
          assert 1 <= |props| && Joined(langs, |props|, x);
        }
        forall i: nat, y | langs(i, y) ensures Reached(Members(), i, y) {
          PropertyIsJson(props, depth, i, y);
        }
        ObjectJson(inner, langs, w);
      }
    }
  }

  lemma {:induction false} PropertyIsJson(props: seq<Field>, depth: nat, i: nat, y: string)
    requires depth <= MAX_DEPTH && PropsLiterally(props, depth, BodyKey(), JsonLiteral()) && PropLangs(props, depth)(i, y)
    ensures Reached(Members(), i, y)
    decreases MAX_DEPTH - depth, 3
  {
    var key, value := props[i].key, props[i].value;
    forall k | KeyLang(key)(k) ensures IsString(k) {
      KeyJson(key, k);
    }
    forall v | DocLang(value, depth)(v) ensures Json(v) {
      DocumentIsJson(value, depth + 1, v);
    }
    MemberJson(KeyLang(key), DocLang(value, depth), i, y);
  }

  // ---------------------------------------------------------------- control characters

  /** The inside of a string by RFC 8259, section 7: control characters have to be escaped. */
  predicate RfcBody(w: string)
    decreases |w|
  {
    || w == ""
    || (w[0] >= ' ' && w[0] != '"' && w[0] != '\\' && RfcBody(w[1..]))
    || (|w| >= 2 && w[0] == '\\' && w[1] in "\"\\/bfnrt" && RfcBody(w[2..]))
    || (|w| >= 6 && w[0] == '\\' && w[1] == 'u' && HexRun(w[2..6]) && RfcBody(w[6..]))
  }

  predicate Controlled(w: string) {
    exists i :: 0 <= i < |w| && w[i] < ' '
  }

  /** The string token is the standard's exactly when no control character stands in it unescaped. */
  lemma {:induction false} RawControlIff(w: string)
    requires IsBody(w)
    ensures RfcBody(w) <==> !Controlled(w)
    decreases |w|
  {
    if w != "" {
      var n := BodyHead(w);
      RawControlIff(w[n..]);
      assert w == w[..n] + w[n..];
      ControlledConcat(w[..n], w[n..]);
      UnitControlled(w, n);
    }
  }

  lemma ControlledConcat(a: string, b: string)
    ensures Controlled(a + b) <==> Controlled(a) || Controlled(b)
  {
    if i :| 0 <= i < |a| && a[i] < ' ' {
      assert (a + b)[i] < ' ';
    }
    if i :| 0 <= i < |b| && b[i] < ' ' {
      assert (a + b)[|a| + i] < ' ';
    }
  }

  /** Escapes hold no control characters. */
  lemma {:induction false} UnitControlled(w: string, n: nat)
    requires LeadingUnit(w, n) && n <= |w|
    ensures Controlled(w[..n]) <==> n == 1 && w[0] < ' '
    ensures RfcBody(w) <==> (n == 1 ==> w[0] >= ' ') && RfcBody(w[n..])
  {
    if n == 1 {
      assert w[..1][0] == w[0];
    } else if n == 6 {
      assert IsHex(w[2..6][0]) && IsHex(w[2..6][1]) && IsHex(w[2..6][2]) && IsHex(w[2..6][3]);
    }
  }

  function StringSchema(): Value {
    Obj([Field("type", Str("string"))])
  }

  /** A plain string schema admits a line break in the string, which the standard does not. */
  lemma RawLineBreak()
    ensures Strict(StringSchema(), 0) && Doc(StringSchema(), 0, "\"\n\"") && !RfcBody("\n")
  {
    var w := "\"\n\"";
    assert w[1..|w| - 1] == "\n" && "\n"[1..] == "";
    assert IsString(w);
    var fields := StringSchema().fields;
    Fields1(fields[0]);
    NoKeyword(fields, 0);
  }

  lemma {:induction false} NoKeyword(fields: seq<Field>, n: nat)
    requires n <= |KEYWORDS| && forall k :: k in KEYWORDS ==> Get(fields, k).None?
    ensures FirstUnsupported(fields, n) == None
    decreases |KEYWORDS| - n
  {
    if n < |KEYWORDS| {
      assert KEYWORDS[n] in KEYWORDS;
      NoKeyword(fields, n + 1);
    }
  }

  // ---------------------------------------------------------------- empty forms

  lemma Fields1(f: Field)
    ensures forall k: string :: Get([f], k) == if k == f.key then Some(f.value) else None
  {
    assert [f][1..] == [];
  }

  lemma TwoSpaces(open: char, close: char, inner: string -> bool, w: string)
    requires w == [open, ' ', ' ', close] && inner("")
    ensures Bracketed(open, close, inner, w)
  {
    assert w[1..2] == " " && w[2..2] == "" && w[2..3] == " ";
    assert BracketedAt(open, close, inner, w, 2, 2);
  }

  lemma {:induction false} SpacedItemsIff(items: Value, depth: nat, max: Option<nat>)
    requires depth <= MAX_DEPTH
    ensures DocItems(items, depth, 0, max, "[  ]") <==> max != Some(0)
  {
    var w := "[  ]";
    assert w[1..|w| - 1] == "  ";
    if max != Some(0) {
      assert ArrayInner(items, depth, 0, max)("");
      TwoSpaces('[', ']', ArrayInner(items, depth, 0, max), w);
    }
  }

  /** An array that may be empty, with room for more, may hold two spaces; one bounded to nothing may not. */
  lemma {:induction false} SpacedArrayIff(fields: seq<Field>, depth: nat)
    requires Strict(Obj(fields), depth) && Get(fields, "const").None? && !HasEnum(fields)
    requires GetStr(fields, "type") == Some("array") && MinItems(fields) == 0
    ensures Doc(Obj(fields), depth, "[  ]") <==> MaxItems(fields) != Some(0)
  {
    CompilesIff(Obj(fields), depth);
    hide Get, GetStr, FirstUnsupported, ArrayText, Literal, IsString, IsNumber, IsInteger, Supported, MinItems, MaxItems;
    hide DocItems;
    var w := "[  ]";
    assert CompileTyped(fields, depth).Ok?;
    CompiledBounds(fields, depth);
    assert Doc(Obj(fields), depth, w) == DocTyped(fields, depth, w) == DocArray(fields, depth, w);
    var items, max := Get(fields, "items").value, MaxItems(fields);
    assert DocArray(fields, depth, w) == DocItems(items, depth, 0, max, w);
    SpacedItemsIff(items, depth, max);
  }

  /** An object without declared properties may hold two spaces; one declared with none may not. */
  lemma {:induction false} SpacedObjectIff(fields: seq<Field>, depth: nat)
    requires Strict(Obj(fields), depth) && Get(fields, "const").None? && !HasEnum(fields)
    requires GetStr(fields, "type") == Some("object") && (HasProperties(fields) ==> Get(fields, "properties").value.fields == [])
    ensures Doc(Obj(fields), depth, "{  }") <==> !HasProperties(fields)
  {
    hide Get, GetStr, HasEnum, FirstUnsupported, AnyObjectText, Literal, IsString, IsNumber, IsInteger;
    var w := "{  }";
    assert w[1..|w| - 1] == "  ";
    assert Doc(Obj(fields), depth, w) == DocTyped(fields, depth, w) == DocObject(fields, depth, w);
    TwoSpaces('{', '}', AnyObjectInner(BareDepth(depth)), w);
  }
}
