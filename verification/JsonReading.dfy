/** Reading compact JSON back: what the serialiser writes for a value reads as that value. */
module JsonReading {
  import opened Wrappers
  import opened JsonSchema

  // ---------------------------------------------------------------- a reader

  function HexDigit(c: char): Option<nat> {
    if '0' <= c <= '9' then Some(c as int - '0' as int)
    else if 'a' <= c <= 'f' then Some(c as int - 'a' as int + 10)
    else if 'A' <= c <= 'F' then Some(c as int - 'A' as int + 10)
    else None
  }

  /** The code that four hexadecimal digits spell. */
  function HexCode(s: string): (r: Option<nat>)
    requires |s| == 4
    ensures r.Some? ==> r.value < 0x10000
  {
    match (HexDigit(s[0]), HexDigit(s[1]), HexDigit(s[2]), HexDigit(s[3]))
    case (Some(a), Some(b), Some(c), Some(d)) =>
      if a < 16 && b < 16 && c < 16 && d < 16 then Some(0x1000 * a + 0x100 * b + 0x10 * c + d) else None
    case _ => None
  }

  /** What a short escape stands for. */
  function Unescaped(c: char): Option<char> {
    match c
    case '"' => Some('"')
    case '\\' => Some('\\')
    case '/' => Some('/')
    case 'b' => Some(8 as char)
    case 'f' => Some(12 as char)
    case 'n' => Some('\n')
    case 'r' => Some('\r')
    case 't' => Some('\t')
    case _ => None
  }

  /** One character of a string by RFC 8259, section 7, and what follows it. */
  function ReadChar(s: string): (r: Option<(char, string)>)
    requires s != ""
    ensures r.Some? ==> |r.value.1| < |s|
  {
    if s[0] != '\\' then if s[0] < ' ' || s[0] == '"' then None else Some((s[0], s[1..]))
    else if |s| >= 2 && Unescaped(s[1]).Some? then Some((Unescaped(s[1]).value, s[2..]))
    else if |s| >= 6 && s[1] == 'u' && HexCode(s[2..6]).Some? && HexCode(s[2..6]).value < 0xD800 then
      Some((HexCode(s[2..6]).value as char, s[6..]))
    else None
  }

  /** The inside of a string up to its closing quote, and what follows it. */
  function ReadChars(s: string): (r: Option<(string, string)>)
    ensures r.Some? ==> |r.value.1| < |s|
    decreases |s|
  {
    if s == "" then None
    else if s[0] == '"' then Some(("", s[1..]))
    else
      match ReadChar(s)
      case None => None
      case Some((c, rest)) =>
        match ReadChars(rest)
        case None => None
        case Some((t, after)) => Some(([c] + t, after))
  }

  predicate NumberChar(c: char) {
    '0' <= c <= '9' || c == '+' || c == '-' || c == '.' || c == 'e' || c == 'E'
  }

  /** How many characters of a number s starts with. */
  function NumberRun(s: string): (n: nat)
    ensures n <= |s|
  {
    if s != "" && NumberChar(s[0]) then 1 + NumberRun(s[1..]) else 0
  }

  /** A number's text as an unsigned integer. */
  function Decimal(text: string): Option<nat> {
    if text == "" then Some(0)
    else
      var n := |text| - 1;
      if '0' <= text[n] <= '9' then
        match Decimal(text[..n])
        case Some(m) => Some(10 * m + (text[n] as int - '0' as int))
        case None => None
      else None
  }

  /** A number that fits 64 bits has its value. */
  function U64(text: string): Option<nat> {
    match Decimal(text)
    case Some(n) => if text != "" && n < 0x1_0000_0000_0000_0000 then Some(n) else None
    case None => None
  }

  function ReadValue(s: string): (r: Option<(Value, string)>)
    ensures r.Some? ==> |r.value.1| < |s|
    decreases |s|, 2
  {
    if s == "" then None
    else if "null" <= s then Some((Null, s[4..]))
    else if "true" <= s then Some((Bool(true), s[4..]))
    else if "false" <= s then Some((Bool(false), s[5..]))
    else if s[0] == '"' then
      match ReadChars(s[1..])
      case None => None
      case Some((t, rest)) => Some((Str(t), rest))
    else if "[]" <= s then Some((Arr([]), s[2..]))
    else if s[0] == '[' then
      match ReadItems(s[1..])
      case None => None
      case Some((items, rest)) => Some((Arr(items), rest))
    else if "{}" <= s then Some((Obj([]), s[2..]))
    else if s[0] == '{' then
      match ReadFields(s[1..])
      case None => None
      case Some((fields, rest)) => Some((Obj(fields), rest))
    else
      var n := NumberRun(s);
      if n == 0 then None else Some((Num(s[..n], U64(s[..n])), s[n..]))
  }

  /** Items up to the closing bracket. */
  function ReadItems(s: string): (r: Option<(seq<Value>, string)>)
    ensures r.Some? ==> |r.value.1| < |s|
    decreases |s|, 3
  {
    match ReadValue(s)
    case None => None
    case Some((v, rest)) =>
      if rest == "" then None
      else if rest[0] == ']' then Some(([v], rest[1..]))
      else if rest[0] == ',' then
        match ReadItems(rest[1..])
        case None => None
        case Some((more, after)) => Some(([v] + more, after))
      else None
  }

  /** Fields up to the closing brace. */
  function ReadFields(s: string): (r: Option<(seq<Field>, string)>)
    ensures r.Some? ==> |r.value.1| < |s|
    decreases |s|, 3
  {
    if s == "" || s[0] != '"' then None
    else
      match ReadChars(s[1..])
      case None => None
      case Some((key, colon)) =>
        if colon == "" || colon[0] != ':' then None
        else
          match ReadValue(colon[1..])
          case None => None
          case Some((v, rest)) =>
            if rest == "" then None
            else if rest[0] == '}' then Some(([Field(key, v)], rest[1..]))
            else if rest[0] == ',' then
              match ReadFields(rest[1..])
              case None => None
              case Some((more, after)) => Some(([Field(key, v)] + more, after))
            else None
  }

  // ---------------------------------------------------------------- strings

  lemma JsonCharReads(c: char, rest: string)
    ensures ReadChar(JsonChar(c) + rest) == Some((c, rest))
    ensures (JsonChar(c) + rest)[0] != '"'
  {
    var j := JsonChar(c);
    var s := j + rest;
    assert s[|j|..] == rest;
    if |j| == 6 {
      hide HexCode;
      assert s[2..6] == "00" + [HEX_DIGITS[c as int / 16], HEX_DIGITS[c as int % 16]];
      HexReads(c);
    } else if |j| == 2 {
      hide HexCode;
      assert s[1] == j[1];
    }
  }

  /** Control characters without a short escape. */
  lemma HexReads(c: char)
    requires c < ' '
    ensures HexCode("00" + [HEX_DIGITS[c as int / 16], HEX_DIGITS[c as int % 16]]) == Some(c as int)
  {
  }

  lemma {:induction false} StringReads(t: string, rest: string)
    ensures ReadChars(JsonChars(t) + ("\"" + rest)) == Some((t, rest))
  {
    if t == "" {
      assert JsonChars(t) + ("\"" + rest) == "\"" + rest;
    } else {
      var more := JsonChars(t[1..]) + ("\"" + rest);
      assert JsonChars(t) + ("\"" + rest) == JsonChar(t[0]) + more;
      JsonCharReads(t[0], more);
      StringReads(t[1..], rest);
      assert t == [t[0]] + t[1..];
    }
  }

  // ---------------------------------------------------------------- numbers

  ghost predicate NumberText(text: string) {
    text != "" && forall i :: 0 <= i < |text| ==> NumberChar(text[i])
  }

  /** Nothing that could belong to a number follows. */
  predicate Ends(rest: string) {
    rest == "" || !NumberChar(rest[0])
  }

  lemma {:induction false} RunOf(text: string, rest: string)
    requires Ends(rest) && forall i :: 0 <= i < |text| ==> NumberChar(text[i])
    ensures NumberRun(text + rest) == |text|
  {
    if text == "" {
      assert text + rest == rest;
    } else {
      assert (text + rest)[1..] == text[1..] + rest;
      RunOf(text[1..], rest);
    }
  }

  // ---------------------------------------------------------------- values

  /** Every number in the value is written with number characters, and has its value exactly when it is a 64-bit integer. */
  ghost predicate Readable(v: Value)
    decreases v
  {
    match v
    case Num(text, n) => NumberText(text) && n == U64(text)
    case Arr(items) => forall i :: 0 <= i < |items| ==> Readable(items[i])
    case Obj(fields) => forall i :: 0 <= i < |fields| ==> Readable(fields[i].value)
    case _ => true
  }

  /** The items from i on, with commas between them. */
  function ItemsFrom(v: Value, i: nat): string
    requires v.Arr? && i < |v.items|
    decreases |v.items| - i
  {
    ToJson(v.items[i]) + if i == |v.items| - 1 then "" else "," + ItemsFrom(v, i + 1)
  }

  function FieldsFrom(v: Value, i: nat): string
    requires v.Obj? && i < |v.fields|
    decreases |v.fields| - i
  {
    FieldJson(v, i) + if i == |v.fields| - 1 then "" else "," + FieldsFrom(v, i + 1)
  }

  function FieldJson(v: Value, i: nat): string
    requires v.Obj? && i < |v.fields|
  {
    "\"" + (JsonChars(v.fields[i].key) + ("\":" + ToJson(v.fields[i].value)))
  }

  lemma {:induction false} ItemsSplit(v: Value, n: nat)
    requires v.Arr? && 0 < n <= |v.items|
    ensures ItemsFrom(v, 0) == ItemsJson(v, n) + if n == |v.items| then "" else "," + ItemsFrom(v, n)
    decreases n
  {
    if n > 1 {
      ItemsSplit(v, n - 1);
      var x, y := ItemsJson(v, n - 1), ToJson(v.items[n - 1]);
      assert ItemsJson(v, n) == x + "," + y;
      Comma(x, y, if n == |v.items| then "" else "," + ItemsFrom(v, n));
    }
  }

  lemma Comma(x: string, y: string, z: string)
    ensures x + ("," + (y + z)) == x + "," + y + z
  {
  }

  lemma FieldsLast(v: Value, n: nat)
    requires v.Obj? && 0 < n <= |v.fields|
    ensures FieldsJson(v, n) == (if n == 1 then "" else FieldsJson(v, n - 1) + ",") + FieldJson(v, n - 1)
  {
    var x, k, t := if n == 1 then "" else FieldsJson(v, n - 1) + ",", JsonChars(v.fields[n - 1].key), ToJson(v.fields[n - 1].value);
    assert x + "\"" + k + "\":" + t == x + ("\"" + (k + ("\":" + t)));
  }

  lemma {:induction false} FieldsSplit(v: Value, n: nat)
    requires v.Obj? && 0 < n <= |v.fields|
    ensures FieldsFrom(v, 0) == FieldsJson(v, n) + if n == |v.fields| then "" else "," + FieldsFrom(v, n)
    decreases n
  {
    hide FieldJson, FieldsJson;
    FieldsLast(v, n);
    if n > 1 {
      FieldsSplit(v, n - 1);
      Comma(FieldsJson(v, n - 1), FieldJson(v, n - 1), if n == |v.fields| then "" else "," + FieldsFrom(v, n));
    } else {
      assert "" + FieldJson(v, 0) == FieldJson(v, 0);
    }
  }

  /** A value's text starts with a character that no other kind of value starts with. */
  predicate Starts(v: Value, c: char) {
    match v
    case Null => c == 'n'
    case Bool(b) => c == if b then 't' else 'f'
    case Num(_, _) => NumberChar(c)
    case Str(_) => c == '"'
    case Arr(_) => c == '['
    case Obj(_) => c == '{'
  }

  lemma {:induction false} TextStarts(v: Value)
    requires Readable(v)
    ensures ToJson(v) != "" && Starts(v, ToJson(v)[0])
  {
  }

  // One step of the reader each.

  lemma {:induction false} ReadsEmpty(rest: string)
    ensures ReadValue("[]" + rest) == Some((Arr([]), rest)) && ReadValue("{}" + rest) == Some((Obj([]), rest))
  {
    var s, t := "[]" + rest, "{}" + rest;
    assert s[0] == '[' && s[..2] == "[]" && s[2..] == rest;
    assert t[0] == '{' && t[..2] == "{}" && t[2..] == rest;
  }

  lemma {:induction false} ReadsArr(x: string, items: seq<Value>, rest: string)
    requires x != "" && x[0] != ']' && ReadItems(x) == Some((items, rest))
    ensures ReadValue("[" + x) == Some((Arr(items), rest))
  {
    assert ("[" + x)[1..] == x;
  }

  lemma {:induction false} ReadsObj(x: string, fields: seq<Field>, rest: string)
    requires x != "" && x[0] == '"' && ReadFields(x) == Some((fields, rest))
    ensures ReadValue("{" + x) == Some((Obj(fields), rest))
  {
    assert ("{" + x)[1..] == x;
  }

  lemma {:induction false} LastItem(x: string, v: Value, rest: string)
    requires ReadValue(x) == Some((v, "]" + rest))
    ensures ReadItems(x) == Some(([v], rest))
  {
    assert ("]" + rest)[1..] == rest;
  }

  lemma {:induction false} MoreItems(x: string, v: Value, more: string, items: seq<Value>, rest: string)
    requires ReadValue(x) == Some((v, "," + more)) && ReadItems(more) == Some((items, rest))
    ensures ReadItems(x) == Some(([v] + items, rest))
  {
    assert ("," + more)[1..] == more;
  }

  lemma {:induction false} LastField(x: string, key: string, y: string, v: Value, rest: string)
    requires x != "" && x[0] == '"' && ReadChars(x[1..]) == Some((key, ":" + y)) && ReadValue(y) == Some((v, "}" + rest))
    ensures ReadFields(x) == Some(([Field(key, v)], rest))
  {
    assert ("}" + rest)[1..] == rest && (":" + y)[1..] == y;
  }

  lemma {:induction false} MoreFields(x: string, key: string, y: string, v: Value, more: string, fields: seq<Field>, rest: string)
    requires x != "" && x[0] == '"' && ReadChars(x[1..]) == Some((key, ":" + y)) && ReadValue(y) == Some((v, "," + more))
    requires ReadFields(more) == Some((fields, rest))
    ensures ReadFields(x) == Some(([Field(key, v)] + fields, rest))
  {
    assert ("," + more)[1..] == more && (":" + y)[1..] == y;
  }

  /** What is written for a value reads back as the value, whatever follows. */
  lemma {:induction false} ValueReads(v: Value, rest: string)
    requires Readable(v) && Ends(rest)
    ensures ReadValue(ToJson(v) + rest) == Some((v, rest))
    decreases v, 1
  {
    var s := ToJson(v) + rest;
    match v
    case Null => assert s[..4] == "null" && s[4..] == rest;
    case Bool(b) => WordReads(b, rest);
    case Num(text, n) => NumberReads(text, n, rest);
    case Str(t) => StrReads(t, rest);
    case Arr(items) => ArrReads(v, rest);
    case Obj(fields) => ObjReads(v, rest);
  }

  lemma {:induction false} WordReads(b: bool, rest: string)
    ensures ReadValue(ToJson(Bool(b)) + rest) == Some((Bool(b), rest))
  {
    var s := ToJson(Bool(b)) + rest;
    if b {
      assert s[..4] == "true" && s[4..] == rest && s[0] == 't';
    } else {
      assert s[..5] == "false" && s[5..] == rest && s[0] == 'f';
    }
  }

  lemma {:induction false} NumberReads(text: string, n: Option<nat>, rest: string)
    requires NumberText(text) && n == U64(text) && Ends(rest)
    ensures ReadValue(text + rest) == Some((Num(text, n), rest))
  {
    RunOf(text, rest);
    var s := text + rest;
    assert s[0] == text[0] && NumberChar(s[0]);
    assert s[..|text|] == text && s[|text|..] == rest;
  }

  lemma {:induction false} StrReads(t: string, rest: string)
    ensures ReadValue(ToJson(Str(t)) + rest) == Some((Str(t), rest))
  {
    hide JsonChars, ReadChars;
    Quoted(JsonChars(t), rest);
    StringReads(t, rest);
  }

  lemma Quoted(x: string, rest: string)
    ensures var s := "\"" + x + "\"" + rest; s != "" && s[0] == '"' && s[1..] == x + ("\"" + rest)
  {
  }

  lemma {:induction false} ArrReads(v: Value, rest: string)
    requires v.Arr? && Readable(v)
    ensures ReadValue(ToJson(v) + rest) == Some((v, rest))
    decreases v, 0
  {
    if v.items == [] {
      assert ToJson(v) == "[" + "" + "]" == "[]";
      ReadsEmpty(rest);
    } else {
      hide ReadValue, ReadItems, ItemsFrom;
      ItemsRead(v, 0, rest);
      FirstItem(v, rest);
      ArrText(v, rest);
      ReadsArr(ItemsFrom(v, 0) + ("]" + rest), v.items[0..], rest);
      assert v.items[0..] == v.items;
    }
  }

  /** A list with items: a bracket, then the items. */
  lemma {:induction false} ArrText(v: Value, rest: string)
    requires v.Arr? && v.items != []
    ensures ToJson(v) + rest == "[" + (ItemsFrom(v, 0) + ("]" + rest))
  {
    ItemsSplit(v, |v.items|);
    var x := ItemsFrom(v, 0);
    assert x == ItemsJson(v, |v.items|) + "" == ItemsJson(v, |v.items|);
    assert "[" + x + "]" + rest == "[" + (x + ("]" + rest));
  }

  /** A list with items does not start like an empty one. */
  lemma {:induction false} FirstItem(v: Value, rest: string)
    requires v.Arr? && Readable(v) && v.items != []
    ensures var x := ItemsFrom(v, 0) + ("]" + rest); x != "" && x[0] != ']'
  {
    TextStarts(v.items[0]);
  }

  lemma {:induction false} ItemsRead(v: Value, i: nat, rest: string)
    requires v.Arr? && Readable(v) && i < |v.items|
    ensures ReadItems(ItemsFrom(v, i) + ("]" + rest)) == Some((v.items[i..], rest))
    decreases v, 0, |v.items| - i
  {
    hide ReadItems, ReadValue, ToJson;
    var y := ToJson(v.items[i]);
    if i == |v.items| - 1 {
      LastText(y, "]" + rest);
      ValueReads(v.items[i], "]" + rest);
      LastItem(y + ("]" + rest), v.items[i], rest);
      assert v.items[i..] == [v.items[i]];
    } else {
      var more := ItemsFrom(v, i + 1) + ("]" + rest);
      MoreText(y, ItemsFrom(v, i + 1), "]" + rest);
      ValueReads(v.items[i], "," + more);
      ItemsRead(v, i + 1, rest);
      MoreItems(y + ("," + more), v.items[i], more, v.items[i + 1..], rest);
      assert v.items[i..] == [v.items[i]] + v.items[i + 1..];
    }
  }

  lemma LastText(y: string, z: string)
    ensures y + "" + z == y + z
  {
  }

  lemma MoreText(y: string, more: string, z: string)
    ensures y + ("," + more) + z == y + ("," + (more + z))
  {
  }

  lemma {:induction false} ObjReads(v: Value, rest: string)
    requires v.Obj? && Readable(v)
    ensures ReadValue(ToJson(v) + rest) == Some((v, rest))
    decreases v, 0
  {
    if v.fields == [] {
      assert ToJson(v) == "{" + "" + "}" == "{}";
      ReadsEmpty(rest);
    } else {
      FieldsRead(v, 0, rest);
      ObjText(v, rest);
      hide ReadValue, ReadFields, FieldsFrom, ToJson;
      ReadsObj(FieldsFrom(v, 0) + ("}" + rest), v.fields[0..], rest);
      assert v.fields[0..] == v.fields;
    }
  }

  /** An object with fields: a brace, then the fields. */
  lemma {:induction false} ObjText(v: Value, rest: string)
    requires v.Obj? && v.fields != []
    ensures ToJson(v) + rest == "{" + (FieldsFrom(v, 0) + ("}" + rest)) && FieldsFrom(v, 0) != "" && FieldsFrom(v, 0)[0] == '"'
  {
    FieldsSplit(v, |v.fields|);
    var x := FieldsFrom(v, 0);
    assert x == FieldsJson(v, |v.fields|) + "" == FieldsJson(v, |v.fields|);
    assert x[0] == '"';
    assert "{" + x + "}" + rest == "{" + (x + ("}" + rest));
  }

  /** A key, a colon and a value. */
  lemma {:induction false} FieldReads(v: Value, i: nat, rest: string)
    requires v.Obj? && Readable(v) && i < |v.fields| && rest != "" && (rest[0] == ',' || rest[0] == '}')
    ensures var s, f := FieldJson(v, i) + rest, v.fields[i];
            s != "" && s[0] == '"' && ReadChars(s[1..]) == Some((f.key, ":" + (ToJson(f.value) + rest)))
            && ReadValue(ToJson(f.value) + rest) == Some((f.value, rest))
    decreases v, 0, 0
  {
    var s, f := FieldJson(v, i) + rest, v.fields[i];
    var colon := ":" + (ToJson(f.value) + rest);
    StringReads(f.key, colon);
    ValueReads(f.value, rest);
    hide JsonChars, ReadChars, ReadValue, ToJson;
    Keyed(JsonChars(f.key), ToJson(f.value), rest);
  }

  lemma Keyed(k: string, y: string, rest: string)
    ensures var s := "\"" + (k + ("\":" + y)) + rest; s != "" && s[0] == '"' && s[1..] == k + ("\"" + (":" + (y + rest)))
  {
  }

  lemma {:induction false} FieldsRead(v: Value, i: nat, rest: string)
    requires v.Obj? && Readable(v) && i < |v.fields|
    ensures ReadFields(FieldsFrom(v, i) + ("}" + rest)) == Some((v.fields[i..], rest))
    decreases v, 0, |v.fields| - i
  {
    hide FieldJson, ToJson, ReadFields, ReadValue, ReadChars;
    var f, y := v.fields[i], FieldJson(v, i);
    if i == |v.fields| - 1 {
      LastText(y, "}" + rest);
      FieldReads(v, i, "}" + rest);
      LastField(y + ("}" + rest), f.key, ToJson(f.value) + ("}" + rest), f.value, rest);
      assert v.fields[i..] == [f];
    } else {
      var more := FieldsFrom(v, i + 1) + ("}" + rest);
      MoreText(y, FieldsFrom(v, i + 1), "}" + rest);
      FieldReads(v, i, "," + more);
      FieldsRead(v, i + 1, rest);
      MoreFields(y + ("," + more), f.key, ToJson(f.value) + ("," + more), f.value, more, v.fields[i + 1..], rest);
      assert v.fields[i..] == [f] + v.fields[i + 1..];
    }
  }

  /** Serialising then reading gives the value back, with nothing left over; so different values have different texts. */
  lemma {:induction false} JsonRoundTrip(v: Value)
    requires Readable(v)
    ensures ReadValue(ToJson(v)) == Some((v, ""))
  {
    ValueReads(v, "");
    assert ToJson(v) + "" == ToJson(v);
  }
}
