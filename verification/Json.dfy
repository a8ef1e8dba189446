/** JSON values and the compact text serde_json prints for them (RFC 8259, sections 2 to 7). */
module Json {
  import opened Prelude

  predicate IsNumberChar(c: char) {
    '0' <= c <= '9' || c == '-' || c == '+' || c == '.' || c == 'e' || c == 'E'
  }

  /** A number is kept as its printed lexeme: section 6 admits no other characters. */
  type Lexeme = s: string | s != "" && forall i | 0 <= i < |s| :: IsNumberChar(s[i]) witness "0"

  datatype Json =
    | Null
    | Bool(b: bool)
    | Number(lexeme: Lexeme)
    | Str(s: string)
    | Arr(items: seq<Json>)
    | Obj(members: seq<Member>)

  datatype Member = Member(name: string, value: Json)

  predicate IsContainer(v: Json) { v.Arr? || v.Obj? }

  function HexDigit(n: nat): char
    requires n < 16
  {
    "0123456789abcdef"[n]
  }

  /** Section 7: quotation mark, reverse solidus and the control characters must be escaped. */
  function EscapeChar(c: char): string {
    if c == '"' then "\\\""
    else if c == '\\' then "\\\\"
    else if c == 8 as char then "\\b"
    else if c == 12 as char then "\\f"
    else if c == '\n' then "\\n"
    else if c == '\r' then "\\r"
    else if c == '\t' then "\\t"
    else if c as int < 32 then ['\\', 'u', '0', '0', HexDigit(c as int / 16), HexDigit(c as int % 16)]
    else [c]
  }

  function Escape(s: string): string {
    if s == [] then [] else EscapeChar(s[0]) + Escape(s[1..])
  }

  function Quote(s: string): string { ['"'] + Escape(s) + ['"'] }

  function Print(v: Json): string
    decreases v, 1
  {
    match v
    case Null => "null"
    case Bool(b) => if b then "true" else "false"
    case Number(lexeme) => lexeme
    case Str(s) => Quote(s)
    case Arr(items) => ['['] + PrintItems(items) + [']']
    case Obj(members) => ['{'] + PrintMembers(members) + ['}']
  }

  function PrintItems(items: seq<Json>): string
    decreases items, 0
  {
    if items == [] then []
    else Print(items[0]) + (if |items| == 1 then [] else [','] + PrintItems(items[1..]))
  }

  function PrintMembers(members: seq<Member>): string
    decreases members, 0
  {
    if members == [] then []
    else
      Quote(members[0].name) + [':'] + Print(members[0].value)
      + (if |members| == 1 then [] else [','] + PrintMembers(members[1..]))
  }

  // ---- Escapes can be undone ---------------------------------------------

  function HexValue(c: char): Option<nat> {
    if '0' <= c <= '9' then Some(c as int - '0' as int)
    else if 'a' <= c <= 'f' then Some(c as int - 'a' as int + 10)
    else None
  }

  function ShortEscape(c: char): Option<char> {
    if c == '"' || c == '\\' then Some(c)
    else if c == 'b' then Some(8 as char)
    else if c == 'f' then Some(12 as char)
    else if c == 'n' then Some(10 as char)
    else if c == 'r' then Some(13 as char)
    else if c == 't' then Some(9 as char)
    else None
  }

  function Prepend(c: char, rest: Option<string>): Option<string> {
    if rest.Some? then Some([c] + rest.value) else None
  }

  /** What section 7 makes of the content of a string, as far as the printer uses it. */
  function Unescape(t: string): Option<string> {
    if t == [] then Some([])
    else if t[0] != '\\' then
      (if t[0] == '"' || t[0] as int < 32 then None else Prepend(t[0], Unescape(t[1..])))
    else if |t| >= 6 && t[1] == 'u' && t[2] == '0' && t[3] == '0' && HexValue(t[4]).Some? && HexValue(t[5]).Some? then
      Prepend((HexValue(t[4]).value * 16 + HexValue(t[5]).value) as char, Unescape(t[6..]))
    else if |t| >= 2 && ShortEscape(t[1]).Some? then Prepend(ShortEscape(t[1]).value, Unescape(t[2..]))
    else None
  }

  lemma HexDigitValue(n: nat)
    requires n < 16
    ensures HexValue(HexDigit(n)) == Some(n)
  {
    var digits := "0123456789abcdef";
    assert forall k | 0 <= k < 10 :: digits[k] as int == '0' as int + k;
    assert forall k | 10 <= k < 16 :: digits[k] as int == 'a' as int + k - 10;
  }

  lemma UnescapeChar(c: char, rest: string)
    ensures Unescape(EscapeChar(c) + rest) == Prepend(c, Unescape(rest))
  {
    var e := EscapeChar(c);
    if |e| == 6 {
      UnescapeControl(c, e, e + rest, rest);
    } else if |e| == 2 {
      UnescapeShort(c, e, e + rest, rest);
    } else {
      assert (e + rest)[1..] == rest;
    }
  }

  lemma UnescapeControl(c: char, e: string, t: string, rest: string)
    requires e == EscapeChar(c) && |e| == 6 && t == e + rest
    ensures Unescape(t) == Prepend(c, Unescape(rest))
  {
    HexDigitValue(c as int / 16);
    HexDigitValue(c as int % 16);
    assert t[0] == '\\' && t[1] == 'u' && t[2] == '0' && t[3] == '0' && t[4] == e[4] && t[5] == e[5];
    assert t[6..] == rest;
  }

  lemma UnescapeShort(c: char, e: string, t: string, rest: string)
    requires e == EscapeChar(c) && |e| == 2 && t == e + rest
    ensures Unescape(t) == Prepend(c, Unescape(rest))
  {
    assert t[0] == '\\' && t[1] == e[1] != 'u';
    assert t[2..] == rest;
  }

  /** Every string survives the printer: its escaped form reads back as the string. */
  lemma {:induction false} EscapeIsUndone(s: string)
    ensures Unescape(Escape(s)) == Some(s)
  {
    if s != [] {
      UnescapeChar(s[0], Escape(s[1..]));
      EscapeIsUndone(s[1..]);
      assert [s[0]] + s[1..] == s;
    }
  }

  /** The printer's punctuation, by example. */
  lemma PrintsCompactly(n: Lexeme)
    ensures Print(Obj([])) == "{}" && Print(Arr([])) == "[]"
    ensures Print(Arr([Null, Bool(true)])) == "[null,true]"
    ensures Print(Obj([Member("a", Number(n)), Member("b", Null)])) == "{\"a\":" + n + ",\"b\":null}"
  {
    TwoItems();
    LastMember();
    TwoMembers(n);
  }

  lemma TwoItems()
    ensures Print(Arr([Null, Bool(true)])) == "[null,true]"
  {
    assert [Null, Bool(true)][1..] == [Bool(true)];
    assert PrintItems([Bool(true)]) == "true";
  }

  lemma LastMember()
    ensures PrintMembers([Member("b", Null)]) == "\"b\":null"
  {
    assert Quote("b") == "\"b\"";
  }

  lemma TwoMembers(n: Lexeme)
    ensures Print(Obj([Member("a", Number(n)), Member("b", Null)])) == "{\"a\":" + n + ",\"b\":null}"
  {
    var ms := [Member("a", Number(n)), Member("b", Null)];
    assert ms[1..] == [Member("b", Null)];
    assert Quote("a") == "\"a\"";
    LastMember();
    assert PrintMembers(ms) == "\"a\"" + ":" + n + ("," + "\"b\":null");
  }
}
