/** Escaping strings for log lines, as JSON (section 7 of RFC 8259) and as
    text, and readers that undo it wherever in a line the string stands. */
module Escape {
  import opened Basics

  // --- Characters ---

  predicate Control(c: char) {
    c as int < 0x20 || 0x7f <= c as int < 0xa0
  }

  predicate Whitespace(c: char) {
    var x := c as int;
    9 <= x <= 13 || x in {0x20, 0x85, 0xa0, 0x1680, 0x2028, 0x2029, 0x202f, 0x205f, 0x3000} || 0x2000 <= x <= 0x200a
  }

  function Hex(d: nat): char
    requires d < 16
  {
    if d < 10 then '0' + d as char else 'a' + (d - 10) as char
  }

  function Unhex(c: char): Option<nat> {
    if '0' <= c <= '9' then Some((c - '0') as nat)
    else if 'a' <= c <= 'f' then Some((c - 'a') as nat + 10)
    else if 'A' <= c <= 'F' then Some((c - 'A') as nat + 10)
    else None
  }

  function UnhexAll(s: string): Option<nat> {
    if s == "" then Some(0)
    else match (UnhexAll(s[..|s| - 1]), Unhex(s[|s| - 1])) {
      case (Some(high), Some(low)) => Some(16 * high + low)
      case _ => None
    }
  }

  /** Two hexadecimal digits; all that is written so is below 0x80. */
  function Hex2(x: nat): string
    requires x < 256
  {
    [Hex(x / 16), Hex(x % 16)]
  }

  // --- Writing ---

  /** A JSON string, a quoted string in text, and a message in text. */
  datatype Style = Json | Quoted | Message

  function EscapeChar(style: Style, c: char): string {
    if c == '"' && style != Message then "\\\""
    else if c == '\\' && style != Message then "\\\\"
    else if c == '\n' then "\\n"
    else if c == '\r' then "\\r"
    else if c == '\t' then "\\t"
    else if c as int < 0x20 || c as int == 0x7f then (if style == Json then "\\u00" else "\\x") + Hex2(c as int)
    else [c]
  }

  function Escaped(style: Style, s: string): string {
    if s == "" then "" else EscapeChar(style, s[0]) + Escaped(style, s[1..])
  }

  function InQuotes(style: Style, s: string): string {
    "\"" + Escaped(style, s) + "\""
  }

  lemma {:induction false} EscapedLast(style: Style, s: string, c: char)
    ensures Escaped(style, s + [c]) == Escaped(style, s) + EscapeChar(style, c)
  {
    if s == "" {
      assert s + [c] == [c];
    } else {
      assert (s + [c])[1..] == s[1..] + [c];
      EscapedLast(style, s[1..], c);
    }
  }

  lemma EscapedOneMore(style: Style, start: string, s: string, i: nat)
    requires i < |s|
    ensures start + Escaped(style, s[..i]) + EscapeChar(style, s[i]) == start + Escaped(style, s[..i + 1])
  {
    EscapedLast(style, s[..i], s[i]);
    assert s[..i + 1] == s[..i] + [s[i]];
  }

  method JsonChar(c: char) returns (piece: string)
    ensures piece == EscapeChar(Json, c)
  {
    match c {
      case '"' => piece := "\\\"";
      case '\\' => piece := "\\\\";
      case '\n' => piece := "\\n";
      case '\r' => piece := "\\r";
      case '\t' => piece := "\\t";
      case _ => piece := if c as int < 0x20 || c as int == 0x7f then "\\u00" + Hex2(c as int) else [c];
    }
  }

  method JsonString(out0: string, s: string) returns (out: string)
    ensures out == out0 + InQuotes(Json, s)
  {
    out := out0 + "\"";
    for i := 0 to |s|
      invariant out == out0 + "\"" + Escaped(Json, s[..i])
    {
      EscapedOneMore(Json, out0 + "\"", s, i);
      var piece := JsonChar(s[i]);
      out := out + piece;
    }
    assert s[..|s|] == s;
    Associative3(out0, Escaped(Json, s));
    out := out + "\"";
  }

  lemma Associative3(out0: string, body: string)
    ensures out0 + "\"" + body + "\"" == out0 + ("\"" + body + "\"")
  {
  }

  method EscapeControls(out0: string, s: string) returns (out: string)
    ensures out == out0 + Escaped(Message, s)
  {
    out := out0;
    for i := 0 to |s|
      invariant out == out0 + Escaped(Message, s[..i])
    {
      EscapedOneMore(Message, out0, s, i);
      var piece;
      match s[i] {
        case '\n' => piece := "\\n";
        case '\r' => piece := "\\r";
        case '\t' => piece := "\\t";
        case c => piece := if c as int < 0x20 || c as int == 0x7f then "\\x" + Hex2(c as int) else [c];
      }
      out := out + piece;
    }
    assert s[..|s|] == s;
  }

  method QuoteChar(out0: string, c: char) returns (out: string)
    ensures out == out0 + EscapeChar(Quoted, c)
  {
    if c == '"' {
      out := out0 + "\\\"";
    } else if c == '\\' {
      out := out0 + "\\\\";
    } else {
      QuotedAsMessage(c);
      out := EscapeControls(out0, [c]);
    }
  }

  method Quote(out0: string, s: string) returns (out: string)
    ensures out == out0 + InQuotes(Quoted, s)
  {
    out := out0 + "\"";
    for i := 0 to |s|
      invariant out == out0 + "\"" + Escaped(Quoted, s[..i])
    {
      EscapedOneMore(Quoted, out0 + "\"", s, i);
      out := QuoteChar(out, s[i]);
    }
    assert s[..|s|] == s;
    Associative3(out0, Escaped(Quoted, s));
    out := out + "\"";
  }

  lemma QuotedAsMessage(c: char)
    requires c != '"' && c != '\\'
    ensures Escaped(Message, [c]) == EscapeChar(Quoted, c)
  {
    assert [c][1..] == "";
  }

  // --- Keys and values in text ---

  predicate Plain(c: char) {
    !Whitespace(c) && !Control(c) && c != '=' && c != '"'
  }

  /** Read as it stands: nothing in it could end it or start something else. */
  predicate Bare(s: string) {
    s != "" && forall i | 0 <= i < |s| :: Plain(s[i]) && s[i] != '\\'
  }

  function TextOf(s: string): string {
    if Bare(s) then s else InQuotes(Quoted, s)
  }

  method TextValue(out0: string, s: string) returns (out: string)
    ensures out == out0 + TextOf(s)
  {
    var bare := s != "";
    for i := 0 to |s|
      invariant bare == (s != "" && forall j | 0 <= j < i :: Plain(s[j]) && s[j] != '\\')
    {
      if Whitespace(s[i]) || Control(s[i]) || s[i] == '"' || s[i] == '=' || s[i] == '\\' {
        bare := false;
      }
    }
    if bare {
      out := out0 + s;
    } else {
      out := Quote(out0, s);
    }
  }

  /** A key, each of its characters that is not plain replaced. */
  function Sanitised(key: string): (r: string)
    ensures r != "" && forall i | 0 <= i < |r| :: Plain(r[i])
  {
    if key == "" then "_"
    else seq(|key|, i requires 0 <= i < |key| => if Plain(key[i]) then key[i] else '_')
  }

  method TextKey(out0: string, key: string) returns (out: string)
    ensures out == out0 + Sanitised(key)
  {
    ghost var text := Sanitised(key);
    out := out0;
    if key == "" {
      out := out + "_";
    }
    for i := 0 to |key|
      invariant out == out0 + if key == "" then text else text[..i]
    {
      out := out + [if Whitespace(key[i]) || Control(key[i]) || key[i] == '=' || key[i] == '"' then '_' else key[i]];
    }
  }

  // --- Reading ---

  /** The next character of a string in quotes, or its end, and what follows. */
  datatype Next = Bad | End(rest: string) | Char(c: char, rest: string)

  function NextChar(style: Style, t: string): (r: Next)
    ensures r.Char? ==> |r.rest| < |t|
  {
    if t == "" then Bad
    else if t[0] == '"' then End(t[1..])
    else if t[0] as int < 0x20 then Bad
    else if t[0] != '\\' then Char(t[0], t[1..])
    else if |t| == 1 then Bad
    else match t[1]
      case '"' => Char('"', t[2..])
      case '\\' => Char('\\', t[2..])
      case 'n' => Char('\n', t[2..])
      case 'r' => Char('\r', t[2..])
      case 't' => Char('\t', t[2..])
      case '/' => if style == Json then Char('/', t[2..]) else Bad
      case 'b' => if style == Json then Char(8 as char, t[2..]) else Bad
      case 'f' => if style == Json then Char(12 as char, t[2..]) else Bad
      case 'u' => if style == Json then NextHex(t, 4) else Bad
      case 'x' => if style != Json then NextHex(t, 2) else Bad
      case _ => Bad
  }

  /** A character by its number, in so many digits (but not half of a pair). */
  function NextHex(t: string, digits: nat): (r: Next)
    requires |t| >= 2 && digits <= 4
    ensures r.Char? ==> |r.rest| < |t|
  {
    if |t| < 2 + digits then Bad
    else match UnhexAll(t[2..2 + digits])
      case Some(x) => if x < 0xd800 || 0xe000 <= x < 0x10000 then Char(x as char, t[2 + digits..]) else Bad
      case None => Bad
  }

  function Unescaped(style: Style, t: string): Option<(string, string)>
    decreases |t|
  {
    match NextChar(style, t)
    case Bad => None
    case End(rest) => Some(("", rest))
    case Char(c, rest) =>
      match Unescaped(style, rest)
      case None => None
      case Some((s, after)) => Some(([c] + s, after))
  }

  /** The string in quotes at the front, and what follows it. */
  function ReadQuotes(style: Style, t: string): Option<(string, string)> {
    if t != "" && t[0] == '"' then Unescaped(style, t[1..]) else None
  }

  function BareEnd(t: string): string {
    if t == "" || t[0] == ' ' || t[0] == '\n' then t else BareEnd(t[1..])
  }

  /** The value at the front, in quotes or up to a space or the line's end. */
  function ReadText(t: string): Option<(string, string)> {
    if t == "" then None
    else if t[0] == '"' then Unescaped(Quoted, t[1..])
    else var rest := BareEnd(t); BareEndShorter(t); Some((t[..|t| - |rest|], rest))
  }

  lemma {:induction false} BareEndShorter(t: string)
    ensures |BareEnd(t)| <= |t|
  {
    if t != "" && t[0] != ' ' && t[0] != '\n' { BareEndShorter(t[1..]); }
  }

  // --- Reading undoes writing ---

  lemma HexReads(x: nat, rest: string)
    requires x < 128
    ensures NextHex("\\x" + Hex2(x) + rest, 2) == Char(x as char, rest)
    ensures NextHex("\\u00" + Hex2(x) + rest, 4) == Char(x as char, rest)
  {
    var d := Hex2(x);
    assert Unhex(d[0]) == Some(x / 16) && Unhex(d[1]) == Some(x % 16);
    assert UnhexAll("") == Some(0);
    assert d[..1] == [d[0]] && [d[0]][..0] == "";
    assert UnhexAll([d[0]]) == Some(x / 16) && UnhexAll(d) == Some(x);
    var t := "\\x" + d + rest;
    assert t[2..4] == d && t[4..] == rest;
    var z := "00" + d;
    assert z[..3] == "00" + [d[0]] && (z[..3])[..2] == "00" && "00"[..1] == "0" && "0"[..0] == "";
    assert UnhexAll("0") == Some(0) && UnhexAll("00") == Some(0) && UnhexAll(z[..3]) == Some(x / 16) && UnhexAll(z) == Some(x);
    var u := "\\u00" + d + rest;
    assert u[2..6] == z && u[6..] == rest;
  }

  lemma CharReads(style: Style, c: char, rest: string)
    requires style != Message
    ensures NextChar(style, EscapeChar(style, c) + rest) == Char(c, rest)
  {
    var e := EscapeChar(style, c);
    assert (e + rest)[|e|..] == rest;
    if c as int < 0x20 || c as int == 0x7f {
      HexReads(c as int, rest);
    }
  }

  lemma Regroup(a: string, b: string, c: string, d: string)
    ensures a + b + c + d == a + (b + c + d)
  {
  }

  /** Reading a string in quotes gives it back, and leaves what follows it. */
  lemma {:induction false} EscapedReads(style: Style, s: string, rest: string)
    requires style != Message
    ensures Unescaped(style, Escaped(style, s) + "\"" + rest) == Some((s, rest))
  {
    if s == "" {
      assert Escaped(style, s) + "\"" + rest == "\"" + rest && ("\"" + rest)[1..] == rest;
    } else {
      EscapedReads(style, s[1..], rest);
      var after := Escaped(style, s[1..]) + "\"" + rest;
      Regroup(EscapeChar(style, s[0]), Escaped(style, s[1..]), "\"", rest);
      CharReads(style, s[0], after);
      assert [s[0]] + s[1..] == s;
    }
  }

  lemma QuotesRead(style: Style, s: string, rest: string)
    requires style != Message
    ensures ReadQuotes(style, InQuotes(style, s) + rest) == Some((s, rest))
  {
    EscapedReads(style, s, rest);
    assert (InQuotes(style, s) + rest)[1..] == Escaped(style, s) + "\"" + rest;
  }

  lemma {:induction false} BareReads(s: string, rest: string)
    requires forall i | 0 <= i < |s| :: Plain(s[i])
    requires rest != "" && (rest[0] == ' ' || rest[0] == '\n')
    ensures BareEnd(s + rest) == rest
  {
    if s == "" {
      assert s + rest == rest;
    } else {
      assert (s + rest)[1..] == s[1..] + rest;
      BareReads(s[1..], rest);
    }
  }

  /** Reading a value in text gives it back, bare or not. */
  lemma TextReads(s: string, rest: string)
    requires rest != "" && (rest[0] == ' ' || rest[0] == '\n')
    ensures ReadText(TextOf(s) + rest) == Some((s, rest))
  {
    if Bare(s) {
      BareReads(s, rest);
      assert (s + rest)[..|s|] == s;
    } else {
      QuotesRead(Quoted, s, rest);
    }
  }

  // --- One line ---

  lemma {:induction false} EscapedOneLine(style: Style, s: string)
    ensures '\n' !in Escaped(style, s)
  {
    if s != "" {
      EscapedOneLine(style, s[1..]);
      assert '\n' !in EscapeChar(style, s[0]);
    }
  }

  /** What needs no escaping is left as it is. */
  lemma {:induction false} EscapedAsIs(s: string)
    requires forall i | 0 <= i < |s| :: ' ' <= s[i] < 0x7f as char && s[i] != '"' && s[i] != '\\'
    ensures Escaped(Json, s) == s
  {
    if s != "" {
      EscapedAsIs(s[1..]);
      assert [s[0]] + s[1..] == s;
    }
  }
}
