/** The JSON-schema compiler: schema values, their JSON text, and the pattern text compiled from them. */
module JsonSchema {
  import opened Wrappers
  import opened Regex
  import opened JsonTokens
  import opened JsonLists

  /** A JSON value; a number keeps its text, and its value when that is an unsigned 64-bit integer. */
  datatype Value = Null | Bool(b: bool) | Num(text: string, asU64: Option<nat>) | Str(s: string)
                 | Arr(items: seq<Value>) | Obj(fields: seq<Field>)

  datatype Field = Field(key: string, value: Value)

  // ---------------------------------------------------------------- JSON text

  const HEX_DIGITS: string := "0123456789abcdef"

  /** A character inside a serialised string. */
  function JsonChar(c: char): (s: string)
    ensures s != ""
  {
    if c == '"' then "\\\""
    else if c == '\\' then "\\\\"
    else if c == 8 as char then "\\b"
    else if c == 12 as char then "\\f"
    else if c == '\n' then "\\n"
    else if c == '\r' then "\\r"
    else if c == '\t' then "\\t"
    else if c < ' ' then "\\u00" + [HEX_DIGITS[c as int / 16], HEX_DIGITS[c as int % 16]]
    else [c]
  }

  function JsonChars(s: string): string {
    if s == "" then "" else JsonChar(s[0]) + JsonChars(s[1..])
  }

  /** Compact serialisation. */
  function ToJson(v: Value): string
    decreases v, if v.Arr? then |v.items| + 1 else if v.Obj? then |v.fields| + 1 else 0
  {
    match v
    case Null => "null"
    case Bool(b) => if b then "true" else "false"
    case Num(text, _) => text
    case Str(s) => "\"" + JsonChars(s) + "\""
    case Arr(items) => "[" + ItemsJson(v, |items|) + "]"
    case Obj(fields) => "{" + FieldsJson(v, |fields|) + "}"
  }

  function ItemsJson(v: Value, n: nat): string
    requires v.Arr? && n <= |v.items|
    decreases v, n
  {
    if n == 0 then ""
    else (if n == 1 then "" else ItemsJson(v, n - 1) + ",") + ToJson(v.items[n - 1])
  }

  function FieldsJson(v: Value, n: nat): string
    requires v.Obj? && n <= |v.fields|
    decreases v, n
  {
    if n == 0 then ""
    else
      (if n == 1 then "" else FieldsJson(v, n - 1) + ",")
      + "\"" + JsonChars(v.fields[n - 1].key) + "\":" + ToJson(v.fields[n - 1].value)
  }

  // ---------------------------------------------------------------- the compiler

  const MAX_DEPTH: nat := 32
  const ANY_JSON_DEFAULT_DEPTH: nat := 5

  datatype SchemaError = TooDeep | NotAnObject | Unsupported(keyword: string) | EmptyEnum | MissingType
                       | UnsupportedType(name: string) | MissingItems | BoundsCrossed | NoTools

  const KEYWORDS: seq<string> := ["$ref", "oneOf", "anyOf", "allOf", "not", "patternProperties", "if"]

  /** The value of a field, if there is one. */
  function Get(fields: seq<Field>, key: string): Option<Value> {
    if fields == [] then None
    else if fields[0].key == key then Some(fields[0].value)
    else Get(fields[1..], key)
  }

  function GetStr(fields: seq<Field>, key: string): Option<string> {
    match Get(fields, key)
    case Some(Str(s)) => Some(s)
    case _ => None
  }

  function GetU64(fields: seq<Field>, key: string): Option<nat> {
    match Get(fields, key)
    case Some(Num(_, n)) => n
    case _ => None
  }

  /** The first rejected keyword present. */
  function FirstUnsupported(fields: seq<Field>, n: nat): Option<string>
    requires n <= |KEYWORDS|
    decreases |KEYWORDS| - n
  {
    if n == |KEYWORDS| then None
    else if Get(fields, KEYWORDS[n]).Some? then Some(KEYWORDS[n])
    else FirstUnsupported(fields, n + 1)
  }

  function Literal(v: Value): string {
    EscText(ToJson(v))
  }

  function Literals(vs: seq<Value>): (ps: seq<string>)
    ensures |ps| == |vs| && forall i :: 0 <= i < |vs| ==> ps[i] == Literal(vs[i])
  {
    seq(|vs|, i requires 0 <= i < |vs| => Literal(vs[i]))
  }

  const TOKENS: seq<string> := [STRING, NUMBER, BOOL, NULL]

  /** The alternatives of the generic value grammar. */
  function AnyAlts(depth: nat): (ps: seq<string>)
    ensures ps != []
    decreases depth, 0
  {
    TOKENS + (if depth == 0 then [] else NestAlts(depth - 1))
  }

  function NestAlts(depth: nat): (ps: seq<string>)
    ensures |ps| == 2
    decreases depth, 3
  {
    [BracketText('[', ListText(AnyText(depth)), ']'), AnyObjectText(depth)]
  }

  /** Any JSON value of bounded nesting. */
  function AnyText(depth: nat): string
    decreases depth, 1
  {
    "(" + Bars(AnyAlts(depth)) + ")"
  }

  /** Any JSON object with values of bounded nesting. */
  function AnyObjectText(depth: nat): string
    decreases depth, 2
  {
    BracketText('{', ListText(MemberText(STRING, AnyText(depth))), '}')
  }

  /** n copies. */
  function Copies<T>(x: T, n: nat): (xs: seq<T>)
    ensures |xs| == n && forall i :: 0 <= i < n ==> xs[i] == x
  {
    seq(n, _ => x)
  }

  /** Lists of lo to hi items. */
  function Parts(item: string, lo: nat, hi: nat): (ps: seq<string>)
    requires 1 <= lo
    ensures |ps| == (if lo <= hi then hi + 1 - lo else 0)
    ensures forall i :: 0 <= i < |ps| ==> ps[i] == JoinTo(Copies(item, lo + i), lo + i)
  {
    seq(if lo <= hi then hi + 1 - lo else 0, i requires 0 <= i => JoinTo(Copies(item, lo + i), lo + i))
  }

  /** The element list of an array with the given bounds. */
  function ArrayBody(item: string, min: nat, max: Option<nat>): string
    requires max.Some? ==> min <= max.value && 0 < max.value
  {
    match max
    case None =>
      if min == 0 then ListText(item) else JoinTo(Copies(item, min), min) + MoreText(item)
    case Some(m) =>
      var alt := "(" + Bars(Parts(item, Max(min, 1), m)) + ")";
      if min == 0 then "(" + alt + ")" + "?" else alt
  }

  function CompileOf(schema: Value, depth: nat): Result<string, SchemaError>
    decreases if depth <= MAX_DEPTH then MAX_DEPTH + 1 - depth else 0, 2, 0
  {
    if depth > MAX_DEPTH then Err(TooDeep)
    else if !schema.Obj? then Err(NotAnObject)
    else
      var fields := schema.fields;
      match FirstUnsupported(fields, 0)
      case Some(k) => Err(Unsupported(k))
      case None =>
        match Get(fields, "const")
        case Some(c) => Ok(Literal(c))
        case None =>
          match Get(fields, "enum")
          case Some(Arr(vals)) => if vals == [] then Err(EmptyEnum) else Ok("(" + Bars(Literals(vals)) + ")")
          case _ => CompileTyped(fields, depth)
  }

  function CompileTyped(fields: seq<Field>, depth: nat): Result<string, SchemaError>
    requires depth <= MAX_DEPTH
    decreases MAX_DEPTH + 1 - depth, 1, 0
  {
    match GetStr(fields, "type")
    case None => Err(MissingType)
    case Some(ty) =>
      if ty == "string" then
        match GetStr(fields, "pattern")
        case Some(p) => Ok("\"" + p + "\"")
        case None => Ok(STRING)
      else if ty == "integer" then Ok(INTEGER)
      else if ty == "number" then Ok(NUMBER)
      else if ty == "boolean" then Ok(BOOL)
      else if ty == "null" then Ok(NULL)
      else if ty == "array" then CompileArrayOf(fields, depth)
      else if ty == "object" then CompileObjectOf(fields, depth)
      else Err(UnsupportedType(ty))
  }

  function CompileArrayOf(fields: seq<Field>, depth: nat): Result<string, SchemaError>
    requires depth <= MAX_DEPTH
    decreases MAX_DEPTH + 1 - depth, 0, 0
  {
    match Get(fields, "items")
    case None => Err(MissingItems)
    case Some(items) =>
      match CompileOf(items, depth + 1)
      case Err(e) => Err(e)
      case Ok(item) =>
        var min := Default(GetU64(fields, "minItems"), 0);
        var max := GetU64(fields, "maxItems");
        if max.Some? && max.value < min then Err(BoundsCrossed)
        else Ok(ArrayText(item, min, max))
  }

  /** The pattern of an array with the given bounds. */
  function ArrayText(item: string, min: nat, max: Option<nat>): string
    requires max.Some? ==> min <= max.value
  {
    if max == Some(0) then EscChar('[') + (SP + EscChar(']')) else BracketText('[', ArrayBody(item, min, max), ']')
  }

  function Default<T>(o: Option<T>, d: T): T {
    match o
    case Some(x) => x
    case None => d
  }

  function CompileObjectOf(fields: seq<Field>, depth: nat): Result<string, SchemaError>
    requires depth <= MAX_DEPTH
    decreases MAX_DEPTH + 1 - depth, 0, 0
  {
    match Get(fields, "properties")
    case Some(Obj(props)) =>
      if props == [] then Ok(EscChar('{') + (SP + EscChar('}')))
      else
        (match PairsOf(props, |props|, depth)
         case Err(e) => Err(e)
         case Ok(pairs) => Ok(BracketText('{', JoinTo(pairs, |pairs|), '}')))
    case _ => Ok(AnyObjectText(BareDepth(depth)))
  }

  /** How deep values of an object without declared properties may nest. */
  function BareDepth(depth: nat): nat {
    if depth + 1 <= ANY_JSON_DEFAULT_DEPTH then ANY_JSON_DEFAULT_DEPTH - depth - 1 else 0
  }

  function KeyText(key: string): string {
    "\"" + (EscText(key) + "\"")
  }

  /** The first n properties, stopping at the first that does not compile. */
  function PairsOf(props: seq<Field>, n: nat, depth: nat): (r: Result<seq<string>, SchemaError>)
    requires depth <= MAX_DEPTH && n <= |props|
    ensures r.Ok? ==> |r.value| == n
    decreases MAX_DEPTH - depth, 3, n
  {
    if n == 0 then Ok([])
    else
      match PairsOf(props, n - 1, depth)
      case Err(e) => Err(e)
      case Ok(pairs) =>
        match CompileOf(props[n - 1].value, depth + 1)
        case Err(e) => Err(e)
        case Ok(val) => Ok(pairs + [MemberText(KeyText(props[n - 1].key), val)])
  }

  const NAME_KEY: string := "\"" + ("name" + "\"")
  const ARGUMENTS_KEY: string := "\"" + ("arguments" + "\"")

  /** A forced call of one tool. */
  function EnvelopeText(name: string, args: string): string {
    BracketText('{', JoinTo(CallTexts(name, args), 2), '}')
  }

  function CallTexts(name: string, args: string): (ps: seq<string>)
    ensures |ps| == 2
  {
    [MemberText(NAME_KEY, Literal(Str(name))), MemberText(ARGUMENTS_KEY, args)]
  }

  function EnvelopesOf(tools: seq<(string, Value)>, n: nat): (r: Result<seq<string>, SchemaError>)
    requires n <= |tools|
    ensures r.Ok? ==> |r.value| == n
  {
    if n == 0 then Ok([])
    else
      match EnvelopesOf(tools, n - 1)
      case Err(e) => Err(e)
      case Ok(alts) =>
        match CompileOf(tools[n - 1].1, 0)
        case Err(e) => Err(e)
        case Ok(args) => Ok(alts + [EnvelopeText(tools[n - 1].0, args)])
  }

  function ToolEnvelopeOf(tools: seq<(string, Value)>): Result<string, SchemaError> {
    if tools == [] then Err(NoTools)
    else
      match EnvelopesOf(tools, |tools|)
      case Err(e) => Err(e)
      case Ok(alts) => Ok("(" + Bars(alts) + ")")
  }

  // ---------------------------------------------------------------- which schemas compile

  predicate Has(fields: seq<Field>, key: string) {
    exists i :: 0 <= i < |fields| && fields[i].key == key
  }

  /** The first field of that name has this value. */
  ghost predicate Holds(fields: seq<Field>, key: string, v: Value) {
    exists i :: 0 <= i < |fields| && fields[i] == Field(key, v) && forall j :: 0 <= j < i ==> fields[j].key != key
  }

  lemma {:induction false} GetIff(fields: seq<Field>, key: string, v: Value)
    ensures Get(fields, key).Some? <==> Has(fields, key)
    ensures Get(fields, key) == Some(v) <==> Holds(fields, key, v)
  {
    if fields != [] {
      var rest := fields[1..];
      GetIff(rest, key, v);
      if fields[0].key == key {
        assert fields[0] == Field(key, fields[0].value);
      } else {
        if i :| 0 <= i < |fields| && fields[i].key == key {
          assert rest[i - 1].key == key;
        }
        if i :| 0 <= i < |fields| && fields[i] == Field(key, v) && forall j :: 0 <= j < i ==> fields[j].key != key {
          assert rest[i - 1] == Field(key, v) && forall j :: 0 <= j < i - 1 ==> rest[j].key == fields[j + 1].key;
        }
        if i :| 0 <= i < |rest| && rest[i] == Field(key, v) && forall j :: 0 <= j < i ==> rest[j].key != key {
          assert fields[i + 1] == Field(key, v) && forall j :: 0 < j < i + 1 ==> fields[j].key == rest[j - 1].key;
        }
      }
    }
  }

  /** Keywords the compiler does not know how to honour. */
  function Rejected(): seq<string> {
    ["$ref", "oneOf", "anyOf", "allOf", "not", "patternProperties", "if"]
  }

  /** The array's lower bound, zero if there is none. */
  function MinItems(fields: seq<Field>): nat {
    match Get(fields, "minItems")
    case Some(Num(_, Some(n))) => n
    case _ => 0
  }

  function MaxItems(fields: seq<Field>): Option<nat> {
    match Get(fields, "maxItems")
    case Some(Num(_, Some(n))) => Some(n)
    case _ => None
  }

  /** The types without parts. */
  predicate Scalar(ty: string) {
    ty == "string" || ty == "integer" || ty == "number" || ty == "boolean" || ty == "null"
  }

  /** The schema is one that compiles, read off its fields. */
  ghost predicate Supported(schema: Value, depth: nat)
    decreases if depth <= 32 then 33 - depth else 0, 2
  {
    && depth <= 32 && schema.Obj?
    && (forall k :: k in Rejected() ==> !Has(schema.fields, k))
    && (Has(schema.fields, "const") || SupportedUnfixed(schema.fields, depth))
  }

  /** The same for a schema without a constant. */
  ghost predicate SupportedUnfixed(fields: seq<Field>, depth: nat)
    requires depth <= 32
    decreases 33 - depth, 1
  {
    match Get(fields, "enum")
    case Some(Arr(vals)) => vals != []
    case _ =>
      match Get(fields, "type")
      case Some(Str(ty)) =>
        || Scalar(ty)
        || (ty == "array" && SupportedArray(fields, depth))
        || (ty == "object" && SupportedObject(fields, depth))
      case _ => false
  }

  ghost predicate SupportedArray(fields: seq<Field>, depth: nat)
    requires depth <= 32
    decreases 33 - depth, 0
  {
    && Get(fields, "items").Some? && Supported(Get(fields, "items").value, depth + 1)
    && (MaxItems(fields).Some? ==> MinItems(fields) <= MaxItems(fields).value)
  }

  /** Every declared property is supported; without declarations any object is admitted. */
  ghost predicate SupportedObject(fields: seq<Field>, depth: nat)
    requires depth <= 32
    decreases 33 - depth, 0
  {
    match Get(fields, "properties")
    case Some(Obj(props)) => forall i :: 0 <= i < |props| ==> Supported(props[i].value, depth + 1)
    case _ => true
  }

  lemma {:induction false} NoneUnsupported(fields: seq<Field>, n: nat)
    requires n <= |KEYWORDS|
    ensures FirstUnsupported(fields, n).None? <==> forall m :: n <= m < |KEYWORDS| ==> !Has(fields, KEYWORDS[m])
    ensures FirstUnsupported(fields, n).Some? ==>
        exists m :: n <= m < |KEYWORDS| && FirstUnsupported(fields, n) == Some(KEYWORDS[m]) && Has(fields, KEYWORDS[m])
                    && forall l :: n <= l < m ==> !Has(fields, KEYWORDS[l])
    decreases |KEYWORDS| - n
  {
    if n < |KEYWORDS| {
      GetIff(fields, KEYWORDS[n], Null);
      NoneUnsupported(fields, n + 1);
    }
  }

  /** A schema compiles exactly when it is supported. */
  lemma {:induction false} CompilesIff(schema: Value, depth: nat)
    ensures CompileOf(schema, depth).Ok? <==> Supported(schema, depth)
    decreases if depth <= 32 then 33 - depth else 0, 2
  {
    if depth <= 32 && schema.Obj? {
      var fields := schema.fields;
      NoneUnsupported(fields, 0);
      assert forall k :: k in Rejected() <==> k in KEYWORDS;
      GetIff(fields, "const", Null);
      UnfixedCompiles(fields, depth);
    }
  }

  /** The pattern of a supported schema. */
  ghost function PatternOf(schema: Value, depth: nat): (p: string)
    requires Supported(schema, depth)
    ensures CompileOf(schema, depth) == Ok(p)
  {
    CompilesIff(schema, depth);
    CompileOf(schema, depth).value
  }

  /** A string schema's own `pattern` stands between quotation marks as written. */
  lemma {:induction false} PatternQuoted(fields: seq<Field>, depth: nat, p: string)
    requires depth <= 32 && !Has(fields, "const") && forall k :: k in Rejected() ==> !Has(fields, k)
    requires forall vs :: !Holds(fields, "enum", Arr(vs))
    requires Holds(fields, "type", Str("string")) && Holds(fields, "pattern", Str(p))
    ensures CompileOf(Obj(fields), depth) == Ok("\"" + p + "\"")
  {
    NoneUnsupported(fields, 0);
    assert forall k :: k in Rejected() <==> k in KEYWORDS;
    GetIff(fields, "const", Null);
    GetIff(fields, "type", Str("string"));
    GetIff(fields, "pattern", Str(p));
    match Get(fields, "enum")
    case Some(Arr(vs)) => GetIff(fields, "enum", Arr(vs));
    case _ =>
  }

  lemma {:induction false} UnfixedCompiles(fields: seq<Field>, depth: nat)
    requires depth <= 32
    ensures SupportedUnfixed(fields, depth) <==>
        match Get(fields, "enum")
        case Some(Arr(vals)) => vals != []
        case _ => CompileTyped(fields, depth).Ok?
    decreases 33 - depth, 1
  {
    ArrayCompiles(fields, depth);
    ObjectCompiles(fields, depth);
  }

  lemma BoundsAre(fields: seq<Field>)
    ensures Default(GetU64(fields, "minItems"), 0) == MinItems(fields) && GetU64(fields, "maxItems") == MaxItems(fields)
  {
    hide Get;
  }

  lemma {:induction false} ArrayCompiles(fields: seq<Field>, depth: nat)
    requires depth <= 32
    ensures CompileArrayOf(fields, depth).Ok? <==> SupportedArray(fields, depth)
    decreases 33 - depth, 0
  {
    BoundsAre(fields);
    hide Get, GetU64, MinItems, MaxItems, Default, ArrayText, CompileOf, Supported;
    if Get(fields, "items").Some? {
      CompilesIff(Get(fields, "items").value, depth + 1);
    }
  }

  lemma {:induction false} ObjectCompiles(fields: seq<Field>, depth: nat)
    requires depth <= 32
    ensures CompileObjectOf(fields, depth).Ok? <==> SupportedObject(fields, depth)
    decreases 33 - depth, 0
  {
    match Get(fields, "properties")
    case Some(Obj(props)) => PairsCompile(props, |props|, depth);
    case _ =>
  }

  lemma {:induction false} PairsCompile(props: seq<Field>, n: nat, depth: nat)
    requires depth <= 32 && n <= |props|
    ensures PairsOf(props, n, depth).Ok? <==> forall i :: 0 <= i < n ==> Supported(props[i].value, depth + 1)
    decreases 32 - depth, 3, n
  {
    hide CompileOf, Supported;
    if n > 0 {
      PairsCompile(props, n - 1, depth);
      CompilesIff(props[n - 1].value, depth + 1);
    }
  }

  /** Why a schema is refused: the first thing wrong, in the order in which it is looked at. */
  ghost predicate Refused(schema: Value, depth: nat, e: SchemaError)
    decreases if depth <= 32 then 33 - depth else 0, 2
  {
    if depth > 32 then e == TooDeep
    else if !schema.Obj? then e == NotAnObject
    else if exists k :: k in Rejected() && Has(schema.fields, k) then
      exists m :: 0 <= m < 7 && RejectedFirst(schema.fields, m) && e == Unsupported(Rejected()[m])
    else !Has(schema.fields, "const") && RefusedUnfixed(schema.fields, depth, e)
  }

  /** The first rejected keyword present is the m-th. */
  ghost predicate RejectedFirst(fields: seq<Field>, m: nat) {
    m < 7 && Has(fields, Rejected()[m]) && forall l :: 0 <= l < m ==> !Has(fields, Rejected()[l])
  }

  ghost predicate RefusedUnfixed(fields: seq<Field>, depth: nat, e: SchemaError)
    requires depth <= 32
    decreases 33 - depth, 1, 1
  {
    match Get(fields, "enum")
    case Some(Arr(vals)) => vals == [] && e == EmptyEnum
    case _ => RefusedTyped(fields, depth, e)
  }

  ghost predicate RefusedTyped(fields: seq<Field>, depth: nat, e: SchemaError)
    requires depth <= 32
    decreases 33 - depth, 1, 0
  {
    match Get(fields, "type")
    case Some(Str(ty)) =>
      if ty == "array" then RefusedArray(fields, depth, e)
      else if ty == "object" then RefusedObject(fields, depth, e)
      else !Scalar(ty) && e == UnsupportedType(ty)
    case _ => e == MissingType
  }

  ghost predicate RefusedArray(fields: seq<Field>, depth: nat, e: SchemaError)
    requires depth <= 32
    decreases 33 - depth, 0
  {
    match Get(fields, "items")
    case None => e == MissingItems
    case Some(items) =>
      if Supported(items, depth + 1) then
        MaxItems(fields).Some? && MaxItems(fields).value < MinItems(fields) && e == BoundsCrossed
      else Refused(items, depth + 1, e)
  }

  /** The first declared property that is not supported says why. */
  ghost predicate RefusedObject(fields: seq<Field>, depth: nat, e: SchemaError)
    requires depth <= 32
    decreases 33 - depth, 0
  {
    match Get(fields, "properties")
    case Some(Obj(props)) => RefusedProps(props, |props|, depth, e)
    case _ => false
  }

  /** Of the first n properties one is refused for e, and the ones before it are supported. */
  ghost predicate RefusedProps(props: seq<Field>, n: nat, depth: nat, e: SchemaError)
    requires depth <= 32 && n <= |props|
    decreases 32 - depth, 3, n
  {
    n > 0
    && (|| RefusedProps(props, n - 1, depth, e)
        || (Refused(props[n - 1].value, depth + 1, e) && forall j :: 0 <= j < n - 1 ==> Supported(props[j].value, depth + 1)))
  }

  /** A schema is refused exactly for the first thing wrong with it. */
  lemma {:induction false} RefusedIff(schema: Value, depth: nat, e: SchemaError)
    ensures CompileOf(schema, depth) == Err(e) <==> Refused(schema, depth, e)
    decreases if depth <= 32 then 33 - depth else 0, 2
  {
    if depth <= 32 && schema.Obj? {
      var fields := schema.fields;
      NoneUnsupported(fields, 0);
      assert KEYWORDS == Rejected();
      GetIff(fields, "const", Null);
      if exists k :: k in Rejected() && Has(fields, k) {
        KeywordFirst(fields, e);
      }
      UnfixedRefused(fields, depth, e);
    }
  }

  lemma {:induction false} KeywordFirst(fields: seq<Field>, e: SchemaError)
    requires exists k :: k in Rejected() && Has(fields, k)
    ensures FirstUnsupported(fields, 0).Some?
    ensures e == Unsupported(FirstUnsupported(fields, 0).value) <==>
        exists m :: 0 <= m < 7 && RejectedFirst(fields, m) && e == Unsupported(Rejected()[m])
  {
    NoneUnsupported(fields, 0);
    assert KEYWORDS == Rejected();
    var m :| 0 <= m < 7 && FirstUnsupported(fields, 0) == Some(KEYWORDS[m]) && Has(fields, KEYWORDS[m])
             && forall l :: 0 <= l < m ==> !Has(fields, KEYWORDS[l]);
    assert RejectedFirst(fields, m);
    if n :| 0 <= n < 7 && RejectedFirst(fields, n) && e == Unsupported(Rejected()[n]) {
      assert n == m;
    }
  }

  lemma {:induction false} UnfixedRefused(fields: seq<Field>, depth: nat, e: SchemaError)
    requires depth <= 32
    ensures RefusedUnfixed(fields, depth, e) <==>
        match Get(fields, "enum")
        case Some(Arr(vals)) => vals == [] && e == EmptyEnum
        case _ => CompileTyped(fields, depth) == Err(e)
    decreases 33 - depth, 1
  {
    ArrayRefused(fields, depth, e);
    ObjectRefused(fields, depth, e);
    TypedRefused(fields, depth, e);
    hide CompileTyped, RefusedTyped;
  }

  lemma {:induction false} TypedRefused(fields: seq<Field>, depth: nat, e: SchemaError)
    requires depth <= 32
    requires CompileArrayOf(fields, depth) == Err(e) <==> RefusedArray(fields, depth, e)
    requires CompileObjectOf(fields, depth) == Err(e) <==> RefusedObject(fields, depth, e)
    ensures CompileTyped(fields, depth) == Err(e) <==> RefusedTyped(fields, depth, e)
  {
    hide CompileArrayOf, CompileObjectOf, RefusedArray, RefusedObject, Get;
    match Get(fields, "type")
    case Some(Str(ty)) =>
      if ty == "array" {
      } else if ty == "object" {
      } else if Scalar(ty) {
        assert CompileTyped(fields, depth).Ok?;
      } else {
        assert CompileTyped(fields, depth) == Err(UnsupportedType(ty));
      }
    case _ =>
      assert GetStr(fields, "type").None?;
  }

  lemma {:induction false} ArrayRefused(fields: seq<Field>, depth: nat, e: SchemaError)
    requires depth <= 32
    ensures CompileArrayOf(fields, depth) == Err(e) <==> RefusedArray(fields, depth, e)
    decreases 33 - depth, 0
  {
    BoundsAre(fields);
    hide Get, GetU64, MinItems, MaxItems, Default, ArrayText, CompileOf, Supported, Refused;
    if Get(fields, "items").Some? {
      CompilesIff(Get(fields, "items").value, depth + 1);
      RefusedIff(Get(fields, "items").value, depth + 1, e);
    }
  }

  lemma {:induction false} ObjectRefused(fields: seq<Field>, depth: nat, e: SchemaError)
    requires depth <= 32
    ensures CompileObjectOf(fields, depth) == Err(e) <==> RefusedObject(fields, depth, e)
    decreases 33 - depth, 0
  {
    match Get(fields, "properties")
    case Some(Obj(props)) => PairsRefused(props, |props|, depth, e);
    case _ =>
  }

  lemma {:induction false} PairsRefused(props: seq<Field>, n: nat, depth: nat, e: SchemaError)
    requires depth <= 32 && n <= |props|
    ensures PairsOf(props, n, depth) == Err(e) <==> RefusedProps(props, n, depth, e)
    decreases 32 - depth, 3, n
  {
    hide CompileOf;
    if n > 0 {
      PairsRefused(props, n - 1, depth, e);
      PairsCompile(props, n - 1, depth);
      RefusedIff(props[n - 1].value, depth + 1, e);
      LastPair(props, n, depth, e);
    }
  }

  /** The last of n properties is looked at only once the others have compiled. */
  lemma LastPair(props: seq<Field>, n: nat, depth: nat, e: SchemaError)
    requires depth <= 32 && 0 < n <= |props|
    ensures PairsOf(props, n, depth) == Err(e) <==>
              || PairsOf(props, n - 1, depth) == Err(e)
              || (PairsOf(props, n - 1, depth).Ok? && CompileOf(props[n - 1].value, depth + 1) == Err(e))
  {
    hide CompileOf;
  }

  /** Tool calls compile exactly when there is a tool and every tool's parameters are supported. */
  lemma {:induction false} ToolsCompileIff(tools: seq<(string, Value)>)
    ensures ToolEnvelopeOf(tools).Ok? <==> tools != [] && forall i :: 0 <= i < |tools| ==> Supported(tools[i].1, 0)
  {
    EnvelopesCompile(tools, |tools|);
  }

  lemma {:induction false} EnvelopesCompile(tools: seq<(string, Value)>, n: nat)
    requires n <= |tools|
    ensures EnvelopesOf(tools, n).Ok? <==> forall i :: 0 <= i < n ==> Supported(tools[i].1, 0)
  {
    hide Supported, CompileOf, EnvelopeText;
    if n > 0 {
      EnvelopesCompile(tools, n - 1);
      CompilesIff(tools[n - 1].1, 0);
    }
  }

  // ---------------------------------------------------------------- the compiler's loops

  method Esc(s: string) returns (out: string)
    ensures out == EscText(s)
  {
    out := "";
    var i := 0;
    assert s[0..] == s;
    while i < |s|
      invariant i <= |s| && out + EscText(s[i..]) == EscText(s)
    {
      hide EscChar;
      assert s[i..][1..] == s[i + 1..];
      Assoc(out, EscChar(s[i]), EscText(s[i + 1..]));
      EscStep(out, s[i]);
      if s[i] in META {
        out := out + "\\";
      }
      out := out + [s[i]];
      i := i + 1;
    }
  }

  lemma EscStep(out: string, c: char)
    ensures out + EscChar(c) == if c in META then out + "\\" + [c] else out + [c]
  {
  }

  /** Joins with bars, left to right. */
  method JoinBars(ps: seq<string>) returns (out: string)
    requires ps != []
    ensures out == Bars(ps)
  {
    out := ps[|ps| - 1];
    var i := |ps| - 1;
    assert ps[i..] == [ps[i]];
    while i > 0
      invariant 0 <= i < |ps| && out == Bars(ps[i..])
    {
      i := i - 1;
      assert ps[i..][1..] == ps[i + 1..];
      out := ps[i] + "|" + out;
    }
    assert ps[0..] == ps;
  }

  method JoinSep(ps: seq<string>) returns (out: string)
    requires ps != []
    ensures out == JoinTo(ps, |ps|)
  {
    out := ps[0];
    var i := 1;
    while i < |ps|
      invariant 1 <= i <= |ps| && out == JoinTo(ps, i)
    {
      out := out + (SEP + ps[i]);
      i := i + 1;
    }
  }

  method LiteralRegex(v: Value) returns (out: string)
    ensures out == Literal(v)
  {
    out := Esc(ToJson(v));
  }

  /** Compiles a schema; the pattern, or the first error met. */
  method Compile(schema: Value, depth: nat) returns (r: Result<string, SchemaError>)
    ensures r == CompileOf(schema, depth)
    ensures r.Ok? <==> Supported(schema, depth)
    ensures r.Err? ==> Refused(schema, depth, r.error)
    decreases if depth <= MAX_DEPTH then MAX_DEPTH + 1 - depth else 0, 2
  {
    CompilesIff(schema, depth);
    if CompileOf(schema, depth).Err? {
      RefusedIff(schema, depth, CompileOf(schema, depth).error);
    }
    hide Supported, Refused;
    if depth > MAX_DEPTH {
      return Err(TooDeep);
    }
    if !schema.Obj? {
      return Err(NotAnObject);
    }
    var obj := schema.fields;
    var k := 0;
    while k < |KEYWORDS|
      invariant k <= |KEYWORDS| && FirstUnsupported(obj, k) == FirstUnsupported(obj, 0)
    {
      if Get(obj, KEYWORDS[k]).Some? {
        return Err(Unsupported(KEYWORDS[k]));
      }
      k := k + 1;
    }
    var c := Get(obj, "const");
    if c.Some? {
      var p := LiteralRegex(c.value);
      return Ok(p);
    }
    var e := Get(obj, "enum");
    if e.Some? && e.value.Arr? {
      r := CompileEnum(e.value.items);
      return;
    }
    var ty := GetStr(obj, "type");
    if ty == Some("array") {
      r := CompileArray(obj, depth);
    } else if ty == Some("object") {
      r := CompileObject(obj, depth);
    } else {
      r := CompileTyped(obj, depth);
    }
  }

  method CompileEnum(vals: seq<Value>) returns (r: Result<string, SchemaError>)
    ensures r == if vals == [] then Err(EmptyEnum) else Ok("(" + Bars(Literals(vals)) + ")")
  {
    if vals == [] {
      return Err(EmptyEnum);
    }
    var alts: seq<string> := [];
    while |alts| < |vals|
      invariant |alts| <= |vals| && alts == Literals(vals)[..|alts|]
    {
      var p := LiteralRegex(vals[|alts|]);
      alts := alts + [p];
    }
    assert alts == Literals(vals);
    var bars := JoinBars(alts);
    return Ok("(" + bars + ")");
  }

  /** n copies of an item joined by separators. */
  method Repeated(item: string, n: nat) returns (out: string)
    requires 1 <= n
    ensures out == JoinTo(Copies(item, n), n)
  {
    out := JoinSep(Copies(item, n));
  }

  method CompileArray(obj: seq<Field>, depth: nat) returns (r: Result<string, SchemaError>)
    requires depth <= MAX_DEPTH
    ensures r == CompileArrayOf(obj, depth)
    decreases MAX_DEPTH + 1 - depth, 1
  {
    var items := Get(obj, "items");
    if items.None? {
      return Err(MissingItems);
    }
    var item := Compile(items.value, depth + 1);
    if item.Err? {
      return Err(item.error);
    }
    var min := Default(GetU64(obj, "minItems"), 0);
    var max := GetU64(obj, "maxItems");
    if max.Some? {
      if max.value < min {
        return Err(BoundsCrossed);
      }
      if max.value == 0 {
        return Ok(EscChar('[') + (SP + EscChar(']')));
      }
    }
    var body := BuildBody(item.value, min, max);
    return Ok(BracketText('[', body, ']'));
  }

  method BuildBody(item: string, min: nat, max: Option<nat>) returns (body: string)
    requires max.Some? ==> min <= max.value && 0 < max.value
    ensures body == ArrayBody(item, min, max)
  {
    if max.None? {
      if min == 0 {
        return ListText(item);
      }
      var required := Repeated(item, min);
      return required + MoreText(item);
    }
    var parts: seq<string> := [];
    var lo := Max(min, 1);
    var count := lo;
    while count <= max.value
      invariant lo <= count <= max.value + 1
      invariant parts == Parts(item, lo, count - 1)
    {
      var p := Repeated(item, count);
      parts := parts + [p];
      assert parts == Parts(item, lo, count);
      count := count + 1;
    }
    var bars := JoinBars(parts);
    var alt := "(" + bars + ")";
    return if min == 0 then "(" + alt + ")" + "?" else alt;
  }

  method CompileObject(obj: seq<Field>, depth: nat) returns (r: Result<string, SchemaError>)
    requires depth <= MAX_DEPTH
    ensures r == CompileObjectOf(obj, depth)
    decreases MAX_DEPTH + 1 - depth, 1
  {
    var p := Get(obj, "properties");
    if p.None? || !p.value.Obj? {
      return Ok(AnyObjectText(BareDepth(depth)));
    }
    var props := p.value.fields;
    if props == [] {
      return Ok(EscChar('{') + (SP + EscChar('}')));
    }
    var pairs := CompilePairs(props, depth);
    if pairs.Err? {
      return Err(pairs.error);
    }
    var body := JoinSep(pairs.value);
    return Ok(BracketText('{', body, '}'));
  }

  method CompilePairs(props: seq<Field>, depth: nat) returns (r: Result<seq<string>, SchemaError>)
    requires depth <= MAX_DEPTH
    ensures r == PairsOf(props, |props|, depth)
    decreases MAX_DEPTH + 1 - depth, 0
  {
    hide PairsOf, CompileOf, Supported, Refused, MemberText, KeyText;
    PairsNone(props, depth);
    var pairs: seq<string> := [];
    var i := 0;
    while i < |props|
      invariant i <= |props| && PairsOf(props, i, depth) == Ok(pairs)
    {
      var val := Compile(props[i].value, depth + 1);
      PairsNext(props, i, depth, pairs);
      if val.Err? {
        PairsStuck(props, i + 1, |props|, depth);
        return Err(val.error);
      }
      var key := QuoteKey(props[i].key);
      pairs := pairs + [MemberText(key, val.value)];
      i := i + 1;
    }
    return Ok(pairs);
  }

  method QuoteKey(key: string) returns (p: string)
    ensures p == KeyText(key)
  {
    var escaped := Esc(key);
    return "\"" + (escaped + "\"");
  }

  lemma {:induction false} PairsNone(props: seq<Field>, depth: nat)
    requires depth <= MAX_DEPTH
    ensures PairsOf(props, 0, depth) == Ok([])
  {
  }

  lemma PairsNext(props: seq<Field>, i: nat, depth: nat, pairs: seq<string>)
    requires depth <= MAX_DEPTH && i < |props| && PairsOf(props, i, depth) == Ok(pairs)
    ensures PairsOf(props, i + 1, depth) ==
            match CompileOf(props[i].value, depth + 1)
            case Err(e) => Err(e)
            case Ok(val) => Ok(pairs + [MemberText(KeyText(props[i].key), val)])
  {
  }

  /** The first error stands. */
  lemma {:induction false} PairsStuck(props: seq<Field>, i: nat, n: nat, depth: nat)
    requires depth <= MAX_DEPTH && i <= n <= |props| && PairsOf(props, i, depth).Err?
    ensures PairsOf(props, n, depth) == PairsOf(props, i, depth)
  {
    if i < n {
      PairsStuck(props, i, n - 1, depth);
    }
  }

  /** The pattern of a forced call of one of the tools. */
  method ToolCallEnvelopeRegex(tools: seq<(string, Value)>) returns (r: Result<string, SchemaError>)
    ensures r == ToolEnvelopeOf(tools)
    ensures r.Ok? <==> tools != [] && forall i :: 0 <= i < |tools| ==> Supported(tools[i].1, 0)
  {
    ToolsCompileIff(tools);
    hide Supported;
    hide CompileOf, EnvelopeText;
    if tools == [] {
      return Err(NoTools);
    }
    var alts: seq<string> := [];
    var i := 0;
    while i < |tools|
      invariant i <= |tools| && EnvelopesOf(tools, i) == Ok(alts)
    {
      var args := Compile(tools[i].1, 0);
      EnvelopesNext(tools, i, alts);
      if args.Err? {
        EnvelopesStuck(tools, i + 1, |tools|);
        return Err(args.error);
      }
      alts := alts + [EnvelopeText(tools[i].0, args.value)];
      i := i + 1;
    }
    var bars := JoinBars(alts);
    return Ok("(" + bars + ")");
  }

  lemma EnvelopesNext(tools: seq<(string, Value)>, i: nat, alts: seq<string>)
    requires i < |tools| && EnvelopesOf(tools, i) == Ok(alts)
    ensures EnvelopesOf(tools, i + 1) ==
            match CompileOf(tools[i].1, 0)
            case Err(e) => Err(e)
            case Ok(args) => Ok(alts + [EnvelopeText(tools[i].0, args)])
  {
  }

  lemma {:induction false} EnvelopesStuck(tools: seq<(string, Value)>, i: nat, n: nat)
    requires i <= n <= |tools| && EnvelopesOf(tools, i).Err?
    ensures EnvelopesOf(tools, n) == EnvelopesOf(tools, i)
  {
    if i < n {
      EnvelopesStuck(tools, i, n - 1);
    }
  }
}
