/** UTF-8: the bytes of a text, and why a text can be told from the bytes that follow it. */
module Utf8 {
  import opened LogitFsm

  function EncodeChar(c: char): (b: seq<Byte>)
    ensures 1 <= |b| <= 4
  {
    var n := c as int;
    if n < 0x80 then [n]
    else if n < 0x800 then [0xC0 + n / 64, 0x80 + n % 64]
    else if n < 0x10000 then [0xE0 + n / 4096, 0x80 + n / 64 % 64, 0x80 + n % 64]
    else [0xF0 + n / 262144, 0x80 + n / 4096 % 64, 0x80 + n / 64 % 64, 0x80 + n % 64]
  }

  /**
   The table of RFC 3629, section 3: a leading byte that tells how many follow, continuation bytes of six
   bits each, the character's number spread over them, and never more bytes than it needs.
   */
  lemma CharBytes(c: char)
    ensures var b, n := EncodeChar(c), c as int;
            && (forall i :: 1 <= i < |b| ==> 0x80 <= b[i] <= 0xBF)
            && (|b| == 1 ==> b[0] <= 0x7F && n == b[0])
            && (|b| == 2 ==> 0xC2 <= b[0] <= 0xDF && n == 64 * (b[0] as int - 0xC0) + (b[1] as int - 0x80))
            && (|b| == 3 ==> 0xE0 <= b[0] <= 0xEF && n >= 0x800 && n == 4096 * (b[0] as int - 0xE0) + 64 * (b[1] as int - 0x80) + (b[2] as int - 0x80))
            && (|b| == 4 ==> 0xF0 <= b[0] <= 0xF4 && n >= 0x10000
                             && n == 262144 * (b[0] as int - 0xF0) + 4096 * (b[1] as int - 0x80) + 64 * (b[2] as int - 0x80) + (b[3] as int - 0x80))
  {
    Nested(c as int);
  }

  function Encode(s: string): seq<Byte> {
    if s == "" then [] else EncodeChar(s[0]) + Encode(s[1..])
  }

  lemma {:induction false} EncodeConcat(s: string, t: string)
    ensures Encode(s + t) == Encode(s) + Encode(t)
  {
    if s == "" {
      assert s + t == t;
    } else {
      assert (s + t)[1..] == s[1..] + t;
      EncodeConcat(s[1..], t);
    }
  }

  /** How many bytes the character has shows in the first. */
  lemma LeadByte(c: char)
    ensures var b := EncodeChar(c)[0];
            |EncodeChar(c)| == if b < 0x80 then 1 else if b < 0xE0 then 2 else if b < 0xF0 then 3 else 4
  {
  }

  lemma Digits64(n: int, m: int)
    requires 0 <= n && 0 <= m && n % 64 == m % 64 && n / 64 == m / 64
    ensures n == m
  {
  }

  lemma Nested(n: int)
    requires 0 <= n
    ensures n / 4096 == n / 64 / 64 && n / 262144 == n / 64 / 64 / 64
  {
  }

  lemma SameChar(c: char, d: char)
    requires EncodeChar(c) == EncodeChar(d)
    ensures c == d
  {
    var n, m := c as int, d as int;
    LeadByte(c);
    LeadByte(d);
    Nested(n);
    Nested(m);
    if |EncodeChar(c)| == 2 {
      Digits64(n, m);
    } else if |EncodeChar(c)| == 3 {
      Digits64(n / 64, m / 64);
      Digits64(n, m);
    } else if |EncodeChar(c)| == 4 {
      Digits64(n / 64 / 64, m / 64 / 64);
      Digits64(n / 64, m / 64);
      Digits64(n, m);
    }
  }

  /** No character's bytes begin another's. */
  lemma CharPrefix(c: char, x: seq<Byte>, d: char, y: seq<Byte>)
    requires EncodeChar(c) + x == EncodeChar(d) + y
    ensures c == d && x == y
  {
    var a, b := EncodeChar(c), EncodeChar(d);
    assert (a + x)[0] == a[0] && (b + y)[0] == b[0];
    LeadByte(c);
    LeadByte(d);
    assert a == (a + x)[..|a|] == (b + y)[..|b|] == b;
    SameChar(c, d);
    assert x == (a + x)[|a|..] == (b + y)[|b|..] == y;
  }

  /** Bytes that begin with a text's are, if they are a text's, those of a longer text. */
  lemma {:induction false} TextPrefix(u: string, w: seq<Byte>, t: string)
    requires Encode(u) + w == Encode(t)
    ensures |u| <= |t| && u == t[..|u|] && w == Encode(t[|u|..])
  {
    if u != "" {
      var c, v := u[0], u[1..];
      assert EncodeChar(c) + (Encode(v) + w) == Encode(t);
      assert |Encode(t)| > 0;
      CharPrefix(c, Encode(v) + w, t[0], Encode(t[1..]));
      TextPrefix(v, w, t[1..]);
      assert u == [c] + v && t == [t[0]] + t[1..];
      assert t[|u|..] == t[1..][|v|..];
    } else {
      assert t[0..] == t;
    }
  }
}
