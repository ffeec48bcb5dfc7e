/** The JSON text the cache service writes (`JSON.stringify`) and reads back
    (`JSON.parse`), for the scalar values this service stores. Numbers are
    integers here; see README for what that leaves out. */
module Json {
  import opened Common

  /** A JavaScript value as the cache service sees it. */
  datatype Value = Null | Undefined | Bool(b: bool) | Num(n: int) | Str(s: string)

  /** JavaScript truthiness: `null`, `undefined`, `false`, `0` and `""` are falsy. */
  predicate Truthy(v: Value): (b: bool)
    ensures !b <==> v in {Null, Undefined, Bool(false), Num(0), Str("")}
  {
    match v
    case Null => false
    case Undefined => false
    case Bool(b) => b
    case Num(n) => n != 0
    case Str(s) => s != ""
  }

  // ---------------------------------------------------------------------
  // Characters

  predicate IsDigit(c: char) { '0' <= c <= '9' }

  predicate IsHex(c: char) { '0' <= c <= '9' || 'a' <= c <= 'f' || 'A' <= c <= 'F' }

  /** JSON whitespace: space, tab, line feed, carriage return. */
  predicate IsSpace(c: char) { c == ' ' || c == '\t' || c == '\n' || c == '\r' }

  function DigitChar(d: nat): (c: char)
    requires d < 10
    ensures IsDigit(c)
  {
    ('0' as int + d) as char
  }

  function DigitValue(c: char): (d: nat)
    requires IsDigit(c)
    ensures d < 10
  {
    c as int - '0' as int
  }

  /** Lower-case hexadecimal digit, as `JSON.stringify` writes in `\u00XX`. */
  function HexDigit(d: nat): (c: char)
    requires d < 16
    ensures IsHex(c)
  {
    if d < 10 then ('0' as int + d) as char else ('a' as int + d - 10) as char
  }

  function HexValue(c: char): (d: nat)
    requires IsHex(c)
    ensures d < 16
  {
    if '0' <= c <= '9' then c as int - '0' as int
    else if 'a' <= c <= 'f' then c as int - 'a' as int + 10
    else c as int - 'A' as int + 10
  }

  // ---------------------------------------------------------------------
  // Numbers

  /** Decimal text of a natural number, without leading zeros. */
  function NatText(n: nat): (s: string)
    ensures s != [] && forall i :: 0 <= i < |s| ==> IsDigit(s[i])
    ensures n == 0 ==> s == "0"
    ensures n > 0 ==> s[0] != '0'
    decreases n
  {
    if n < 10 then [DigitChar(n)] else NatText(n / 10) + [DigitChar(n % 10)]
  }

  function IntText(n: int): string {
    if n < 0 then "-" + NatText(-n) else NatText(n)
  }

  /** A JSON integer: digits, and no leading zero unless the numeral is "0". */
  predicate IsNumeral(s: string) {
    s != [] && (forall i :: 0 <= i < |s| ==> IsDigit(s[i])) && (|s| == 1 || s[0] != '0')
  }

  function DigitsValue(s: string): nat
    requires s != [] && forall i :: 0 <= i < |s| ==> IsDigit(s[i])
    decreases |s|
  {
    if |s| == 1 then DigitValue(s[0])
    else 10 * DigitsValue(s[..|s| - 1]) + DigitValue(s[|s| - 1])
  }

  function ParseInt(t: string): Option<int> {
    if t != [] && t[0] == '-' then
      if IsNumeral(t[1..]) then Some(-(DigitsValue(t[1..]) as int)) else None
    else if IsNumeral(t) then Some(DigitsValue(t))
    else None
  }

  lemma {:induction false} NatTextValue(n: nat)
    ensures DigitsValue(NatText(n)) == n
    decreases n
  {
    if n >= 10 {
      NatTextValue(n / 10);
      var s := NatText(n);
      assert s[..|s| - 1] == NatText(n / 10);
    }
  }

  // ---------------------------------------------------------------------
  // Strings

  /** How `JSON.stringify` writes one character inside a string literal. */
  function EscapeChar(c: char): string {
    if c == '"' then ['\\', '"']
    else if c == '\\' then ['\\', '\\']
    else if c as int == 8 then ['\\', 'b']
    else if c == '\t' then ['\\', 't']
    else if c == '\n' then ['\\', 'n']
    else if c as int == 12 then ['\\', 'f']
    else if c == '\r' then ['\\', 'r']
    else if c as int < 0x20 then ['\\', 'u', '0', '0', HexDigit(c as int / 16), HexDigit(c as int % 16)]
    else [c]
  }

  function Escape(s: string): string {
    if s == [] then [] else EscapeChar(s[0]) + Escape(s[1..])
  }

  function Prepend(c: char, rest: Option<string>): Option<string> {
    match rest
    case None => None
    case Some(t) => Some([c] + t)
  }

  /** The character a two-character escape `\e` stands for. */
  function SimpleUnescape(e: char): Option<char> {
    if e == '"' then Some('"')
    else if e == '\\' then Some('\\')
    else if e == '/' then Some('/')
    else if e == 'b' then Some(8 as char)
    else if e == 'f' then Some(12 as char)
    else if e == 'n' then Some('\n')
    else if e == 'r' then Some('\r')
    else if e == 't' then Some('\t')
    else None
  }

  /** The body of a JSON string literal (between its quotes), decoded; None
      when it holds a bare quote, a raw control character or a bad escape. */
  function Unescape(b: string): Option<string>
    decreases |b|
  {
    if b == [] then Some([])
    else if b[0] == '"' || b[0] as int < 0x20 then None
    else if b[0] != '\\' then Prepend(b[0], Unescape(b[1..]))
    else if |b| < 2 then None
    else if b[1] == 'u' then
      if |b| < 6 || !(IsHex(b[2]) && IsHex(b[3]) && IsHex(b[4]) && IsHex(b[5])) then None
      else
        var v := HexValue(b[2]) * 4096 + HexValue(b[3]) * 256 + HexValue(b[4]) * 16 + HexValue(b[5]);
        if 0xD800 <= v < 0xE000 then None else Prepend(v as char, Unescape(b[6..]))
    else match SimpleUnescape(b[1])
      case None => None
      case Some(c) => Prepend(c, Unescape(b[2..]))
  }

  lemma HexRoundTrip(d: nat)
    requires d < 16
    ensures HexValue(HexDigit(d)) == d
  {
  }

  lemma UnescapeEscapedChar(c: char, rest: string)
    ensures Unescape(EscapeChar(c) + rest) == Prepend(c, Unescape(rest))
  {
    var b := EscapeChar(c) + rest;
    if c == '"' || c == '\\' || c as int == 8 || c == '\t' || c == '\n' || c as int == 12 || c == '\r' {
      assert b[0] == '\\' && b[2..] == rest;
    } else if c as int < 0x20 {
      var d := c as int;
      HexRoundTrip(d / 16);
      HexRoundTrip(d % 16);
      assert b[0] == '\\' && b[1] == 'u' && b[2] == '0' && b[3] == '0';
      assert b[4] == HexDigit(d / 16) && b[5] == HexDigit(d % 16);
      assert b[6..] == rest;
      assert (d as char) == c;
    } else {
      assert b[0] == c && b[1..] == rest;
    }
  }

  lemma {:induction false} UnescapeEscape(s: string)
    ensures Unescape(Escape(s)) == Some(s)
  {
    if s != [] {
      UnescapeEscape(s[1..]);
      UnescapeEscapedChar(s[0], Escape(s[1..]));
      assert [s[0]] + s[1..] == s;
    }
  }

  // ---------------------------------------------------------------------
  // Whole texts

  function TrimStart(s: string): string {
    if s != [] && IsSpace(s[0]) then TrimStart(s[1..]) else s
  }

  function TrimEnd(s: string): string {
    if s != [] && IsSpace(s[|s| - 1]) then TrimEnd(s[..|s| - 1]) else s
  }

  /** `JSON.stringify(v)`; `undefined` has no JSON text. */
  function Stringify(v: Value): (r: Option<string>)
    ensures r.None? <==> v == Undefined
    ensures r.Some? ==> r.value != [] && !IsSpace(r.value[0]) && !IsSpace(r.value[|r.value| - 1])
  {
    match v
    case Undefined => None
    case Null => Some("null")
    case Bool(b) => Some(if b then "true" else "false")
    case Num(n) => Some(IntText(n))
    case Str(s) => Some(['"'] + Escape(s) + ['"'])
  }

  /** `JSON.parse(text)` on scalar texts; None where it would throw. */
  function Parse(text: string): (r: Option<Value>)
    ensures r != Some(Undefined)
    ensures r.Some? ==> TrimEnd(TrimStart(text)) != []
  {
    var t := TrimEnd(TrimStart(text));
    if t == "null" then Some(Null)
    else if t == "true" then Some(Bool(true))
    else if t == "false" then Some(Bool(false))
    else if |t| >= 2 && t[0] == '"' && t[|t| - 1] == '"' then
      match Unescape(t[1..|t| - 1])
      case None => None
      case Some(s) => Some(Str(s))
    else
      match ParseInt(t)
      case None => None
      case Some(n) => Some(Num(n))
  }

  /** A text that starts and ends with a non-space character is not trimmed. */
  lemma TrimUntouched(t: string)
    requires t != [] && !IsSpace(t[0]) && !IsSpace(t[|t| - 1])
    ensures TrimEnd(TrimStart(t)) == t
  {
  }

  lemma IntTextParseInt(n: int)
    ensures ParseInt(IntText(n)) == Some(n)
  {
    var t := IntText(n);
    if n < 0 {
      NatTextValue(-n);
      assert t[1..] == NatText(-n);
    } else {
      NatTextValue(n);
    }
  }

  lemma IntTextParse(n: int)
    ensures Parse(IntText(n)) == Some(Num(n))
  {
    var t := IntText(n);
    TrimUntouched(t);
    IntTextParseInt(n);
    assert t[0] == '-' || IsDigit(t[0]);
    assert t != "null" && t != "true" && t != "false" by {
      assert t[0] != 'n' && t[0] != 't' && t[0] != 'f';
    }
    assert t[0] != '"';
  }

  lemma StrTextParse(s: string)
    ensures Parse(['"'] + Escape(s) + ['"']) == Some(Str(s))
  {
    var t := ['"'] + Escape(s) + ['"'];
    TrimUntouched(t);
    UnescapeEscape(s);
    assert t[1..|t| - 1] == Escape(s);
  }

  /** Reading back what was written: every value but `undefined` survives
      `JSON.parse(JSON.stringify(v))` unchanged. */
  lemma StringifyParse(v: Value)
    requires v != Undefined
    ensures Stringify(v).Some? && Parse(Stringify(v).value) == Some(v)
  {
    match v
    case Null =>
    case Bool(b) =>
    case Num(n) => IntTextParse(n);
    case Str(s) => StrTextParse(s);
  }
}
