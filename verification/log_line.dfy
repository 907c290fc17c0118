/** Log lines: `format_line` in both formats, readers that take a line apart
    again, and the one newline at its end. */
module LogLine {
  import opened Basics
  import opened Escape
  import opened Timestamp

  const MAX_STR := 16 * 1024
  const MAX_LINE := 64 * 1024
  const TRUNCATED := "...(truncated)"

  // --- Lengths in UTF-8 ---

  function Utf8Char(c: char): nat {
    if c as int < 0x80 then 1 else if c as int < 0x800 then 2 else if c as int < 0x10000 then 3 else 4
  }

  function Utf8(s: string): nat {
    if s == "" then 0 else Utf8Char(s[0]) + Utf8(s[1..])
  }

  predicate CharBoundary(s: string, end: nat) {
    exists k | 0 <= k <= |s| :: Utf8(s[..k]) == end
  }

  /** How many characters fit in so many bytes. */
  function Fitting(s: string, room: nat): (k: nat)
    ensures k <= |s|
  {
    if s == "" || Utf8Char(s[0]) > room then 0 else 1 + Fitting(s[1..], room - Utf8Char(s[0]))
  }

  lemma {:induction false} FittingIs(s: string, room: nat, k: nat)
    requires k <= |s|
    ensures Utf8(s[..k]) <= room <==> k <= Fitting(s, room)
  {
    if k > 0 {
      assert s[..k][1..] == s[1..][..k - 1];
      if Utf8Char(s[0]) <= room {
        FittingIs(s[1..], room - Utf8Char(s[0]), k - 1);
      }
    }
  }

  lemma {:induction false} Utf8Grows(s: string, j: nat, k: nat)
    requires j < k <= |s|
    ensures Utf8(s[..j]) < Utf8(s[..k])
  {
    assert s[..k][1..] == s[1..][..k - 1];
    if j > 0 {
      assert s[..j][1..] == s[1..][..j - 1];
      Utf8Grows(s[1..], j - 1, k - 1);
    }
  }

  /** The longest part of a string that fits, marked if that is not all. */
  function Capped(s: string): string {
    if Utf8(s) <= MAX_STR then s else s[..Fitting(s, MAX_STR)] + TRUNCATED
  }

  method Cap(s: string) returns (r: string)
    ensures r == Capped(s)
  {
    if Utf8(s) <= MAX_STR {
      return s;
    }
    ghost var k := Fitting(s, MAX_STR);
    FittingIs(s, MAX_STR, k);
    var end := MAX_STR;
    while !CharBoundary(s, end)
      invariant Utf8(s[..k]) <= end <= MAX_STR
      decreases end
    {
      end := end - 1;
    }
    var cut :| 0 <= cut <= |s| && Utf8(s[..cut]) == end;
    CutIsFitting(s, cut, MAX_STR);
    r := s[..cut] + TRUNCATED;
  }

  lemma CutIsFitting(s: string, cut: nat, room: nat)
    requires cut <= |s| && Utf8(s[..Fitting(s, room)]) <= Utf8(s[..cut]) <= room
    ensures cut == Fitting(s, room)
  {
    var k := Fitting(s, room);
    FittingIs(s, room, cut);
    if cut < k {
      Utf8Grows(s, cut, k);
    }
  }

  // --- What a line says ---

  /** A float comes with its text, which Rust writes. */
  datatype Value = Str(s: string) | U64(n: nat) | I64(i: int) | F64(shown: string, finite: bool) | Bool(b: bool)
  datatype Field = Field(key: string, value: Value)

  /** A number or a word, unlike a string, is never in quotes. */
  datatype Datum = Text(s: string) | Token(s: string)
  datatype Item = Item(key: string, value: Datum)

  predicate TokenChar(c: char) {
    '0' <= c <= '9' || 'a' <= c <= 'z' || 'A' <= c <= 'Z' || c == '-' || c == '+' || c == '.'
  }

  predicate IsToken(t: string) {
    t != "" && forall i | 0 <= i < |t| :: TokenChar(t[i])
  }

  predicate ValidFields(fields: seq<Field>) {
    forall i | 0 <= i < |fields| :: fields[i].value.F64? ==> IsToken(fields[i].value.shown)
  }

  function Integer(n: int): string {
    if n < 0 then "-" + Decimal(-n) else Decimal(n)
  }

  function FieldKey(key: string): string {
    if key in ["ts", "level", "msg", "task"] then "field." + key else key
  }

  function Shown(v: Value): string {
    match v
    case Str(s) => Capped(s)
    case U64(n) => Integer(n)
    case I64(n) => Integer(n)
    case F64(shown, _) => shown
    case Bool(b) => if b then "true" else "false"
  }

  /** A field as a reader of the line sees it. In text all values are strings,
      and keys have lost what could mislead. */
  function ItemOf(json: bool, f: Field): Item {
    var key := Capped(FieldKey(f.key));
    if !json then Item(Sanitised(key), Text(Shown(f.value)))
    else Item(key, if f.value.Str? then Text(Shown(f.value))
                   else if f.value.F64? && !f.value.finite then Token("null")
                   else Token(Shown(f.value)))
  }

  function ItemsOf(json: bool, fields: seq<Field>): seq<Item> {
    if fields == [] then [] else ItemsOf(json, fields[..|fields| - 1]) + [ItemOf(json, fields[|fields| - 1])]
  }

  function CutShort(json: bool): Item {
    Item("truncated", if json then Token("true") else Text("true"))
  }

  /** The first `n` fields, and a mark if there were more. */
  function Kept(json: bool, fields: seq<Field>, n: nat): seq<Item>
    requires n <= |fields|
  {
    ItemsOf(json, fields[..n]) + if n < |fields| then [CutShort(json)] else []
  }

  function LevelName(level: nat): string {
    if level < 3 then ["debug", "info", "warn"][level] else "error"
  }

  function UpperLevel(level: nat): string {
    if level < 3 then ["DEBUG", "INFO", "WARN"][level] else "ERROR"
  }

  function TaskItem(json: bool, task: Option<nat>): seq<Item> {
    if task.None? then []
    else [Item("task", if json then Token(Integer(task.value)) else Text(Integer(task.value)))]
  }

  // --- How it is written ---

  function DatumText(json: bool, d: Datum): string {
    if !json then TextOf(d.s) else if d.Text? then InQuotes(Json, d.s) else d.s
  }

  function KeyText(json: bool, key: string): string {
    if json then InQuotes(Json, key) else key
  }

  function Lead(json: bool): char {
    if json then ',' else ' '
  }

  function Mark(json: bool): char {
    if json then ':' else '='
  }

  function ItemText(json: bool, i: Item): string {
    [Lead(json)] + KeyText(json, i.key) + [Mark(json)] + DatumText(json, i.value)
  }

  function ItemsText(json: bool, items: seq<Item>): string {
    if items == [] then "" else ItemsText(json, items[..|items| - 1]) + ItemText(json, items[|items| - 1])
  }

  /** Items can be read back only if they are what the format allows. */
  predicate ValidItem(json: bool, i: Item) {
    && (json ==> i.value.Token? ==> IsToken(i.value.s))
    && (!json ==> i.value.Text? && i.key != "" && forall j | 0 <= j < |i.key| :: Plain(i.key[j]))
  }

  predicate ValidItems(json: bool, items: seq<Item>) {
    forall i | 0 <= i < |items| :: ValidItem(json, items[i])
  }

  lemma {:induction false} ItemsTextJoins(json: bool, a: seq<Item>, b: seq<Item>)
    ensures ItemsText(json, a + b) == ItemsText(json, a) + ItemsText(json, b)
  {
    if b == [] {
      assert a + b == a;
    } else {
      var n := |b| - 1;
      assert (a + b)[..|a + b| - 1] == a + b[..n] && (a + b)[|a + b| - 1] == b[n];
      ItemsTextJoins(json, a, b[..n]);
      Associative(ItemsText(json, a), ItemsText(json, b[..n]), ItemText(json, b[n]));
    }
  }

  // --- Reading lines ---

  function TokenEnd(t: string): (r: string)
    ensures |r| <= |t|
  {
    if t == "" || !TokenChar(t[0]) then t else TokenEnd(t[1..])
  }

  function ReadDatum(json: bool, t: string): Option<(Datum, string)> {
    if t == "" then None
    else if json && t[0] != '"' then
      var rest := TokenEnd(t);
      if rest == t then None else Some((Token(t[..|t| - |rest|]), rest))
    else
      match if json then ReadQuotes(Json, t) else ReadText(t)
      case None => None
      case Some((s, rest)) => Some((Text(s), rest))
  }

  function KeyEnd(t: string): (r: string)
    ensures |r| <= |t|
  {
    if t == "" || t[0] == ' ' || t[0] == '=' || t[0] == '\n' then t else KeyEnd(t[1..])
  }

  function ReadKey(json: bool, t: string): Option<(string, string)> {
    if json then ReadQuotes(Json, t) else Some((t[..|t| - |KeyEnd(t)|], KeyEnd(t)))
  }

  function ReadItem(json: bool, t: string): Option<(Item, string)> {
    if t == "" || t[0] != Lead(json) then None
    else match ReadKey(json, t[1..])
      case None => None
      case Some((key, rest)) =>
        if rest == "" || rest[0] != Mark(json) then None
        else match ReadDatum(json, rest[1..])
          case None => None
          case Some((value, after)) => Some((Item(key, value), after))
  }

  function Ending(json: bool): string {
    if json then "}\n" else "\n"
  }

  /** Items up to the end of the line. */
  function ReadItems(json: bool, t: string): Option<seq<Item>>
    decreases |t|
  {
    if t == Ending(json) then Some([])
    else match ReadItem(json, t)
      case None => None
      case Some((i, rest)) =>
        if |rest| >= |t| then None
        else match ReadItems(json, rest)
          case None => None
          case Some(items) => Some([i] + items)
  }

  /** A line in JSON: an object, from its brace. */
  function ReadObject(t: string): Option<seq<Item>> {
    if t != "" && t[0] == '{' then ReadItems(true, "," + t[1..]) else None
  }

  // --- Reading items undoes writing them ---

  predicate Stops(json: bool, rest: string) {
    rest != "" && if json then rest[0] == ',' || rest[0] == '}' else rest[0] == ' ' || rest[0] == '\n'
  }

  lemma {:induction false} TokenReads(t: string, rest: string)
    requires forall i | 0 <= i < |t| :: TokenChar(t[i])
    requires rest != "" && !TokenChar(rest[0])
    ensures TokenEnd(t + rest) == rest
  {
    if t == "" {
      assert t + rest == rest;
    } else {
      assert (t + rest)[1..] == t[1..] + rest;
      TokenReads(t[1..], rest);
    }
  }

  lemma {:induction false} KeyReads(key: string, rest: string)
    requires forall i | 0 <= i < |key| :: Plain(key[i])
    requires rest != "" && rest[0] == '='
    ensures KeyEnd(key + rest) == rest
  {
    if key == "" {
      assert key + rest == rest;
    } else {
      assert (key + rest)[1..] == key[1..] + rest;
      KeyReads(key[1..], rest);
    }
  }

  lemma DatumReads(json: bool, d: Datum, rest: string)
    requires Stops(json, rest) && (if json then d.Token? ==> IsToken(d.s) else d.Text?)
    ensures ReadDatum(json, DatumText(json, d) + rest) == Some((d, rest))
  {
    if !json {
      TextReads(d.s, rest);
    } else if d.Text? {
      QuotesRead(Json, d.s, rest);
    } else {
      TokenReads(d.s, rest);
      assert (d.s + rest)[..|d.s|] == d.s;
    }
  }

  lemma KeyTextReads(json: bool, key: string, after: string)
    requires !json ==> forall j | 0 <= j < |key| :: Plain(key[j])
    requires after != "" && after[0] == Mark(json)
    ensures ReadKey(json, KeyText(json, key) + after) == Some((key, after))
  {
    if json {
      QuotesRead(Json, key, after);
    } else {
      KeyReads(key, after);
      assert (key + after)[..|key|] == key;
    }
  }

  lemma FourParts(lead: char, key: string, mark: char, datum: string, rest: string)
    ensures [lead] + key + [mark] + datum + rest == [lead] + (key + ([mark] + (datum + rest)))
    ensures ([lead] + (key + ([mark] + (datum + rest))))[1..] == key + ([mark] + (datum + rest))
    ensures ([mark] + (datum + rest))[1..] == datum + rest
  {
  }

  lemma ItemReads(json: bool, i: Item, rest: string)
    requires ValidItem(json, i) && Stops(json, rest)
    ensures ReadItem(json, ItemText(json, i) + rest) == Some((i, rest))
  {
    var key, datum := KeyText(json, i.key), DatumText(json, i.value);
    FourParts(Lead(json), key, Mark(json), datum, rest);
    KeyTextReads(json, i.key, [Mark(json)] + (datum + rest));
    DatumReads(json, i.value, rest);
  }

  /** Reading the items of a line gives them back. */
  lemma {:induction false} ItemsRead(json: bool, items: seq<Item>)
    requires ValidItems(json, items)
    ensures ReadItems(json, ItemsText(json, items) + Ending(json)) == Some(items)
    decreases |items|
  {
    if items != [] {
      var first, others := items[0], items[1..];
      var rest := ItemsText(json, others) + Ending(json);
      ItemsTextFirst(json, items);
      Associative(ItemText(json, first), ItemsText(json, others), Ending(json));
      ItemsStop(json, others);
      ItemReads(json, first, rest);
      ItemsRead(json, others);
      assert items == [first] + others;
    }
  }

  lemma ItemsTextOne(json: bool, i: Item)
    ensures ItemsText(json, [i]) == ItemText(json, i)
  {
    assert [i][..0] == [];
  }

  lemma ItemsTextFirst(json: bool, items: seq<Item>)
    requires items != []
    ensures ItemsText(json, items) == ItemText(json, items[0]) + ItemsText(json, items[1..])
  {
    ItemsTextJoins(json, [items[0]], items[1..]);
    ItemsTextOne(json, items[0]);
    assert [items[0]] + items[1..] == items;
  }

  lemma {:induction false} ItemsStop(json: bool, items: seq<Item>)
    ensures Stops(json, ItemsText(json, items) + Ending(json))
    ensures items != [] ==> ItemsText(json, items) != "" && ItemsText(json, items)[0] == Lead(json)
    decreases |items|
  {
    if |items| > 0 {
      ItemsStop(json, items[..|items| - 1]);
    }
  }

  // --- Messages in text ---

  /** A message with an equals sign or a quote in it stands in quotes. */
  function MessageText(m: string): string {
    if '=' in m || '"' in m then InQuotes(Quoted, m) else Escaped(Message, m)
  }

  /** The first space, equals sign or newline. */
  function NextSign(t: string): char {
    if t == "" then '\n' else if t[0] in " =\n" then t[0] else NextSign(t[1..])
  }

  /** The line's end, or a key with its equals sign, starts here. */
  predicate FieldsStart(t: string) {
    t == "\n" || (t != "" && t[0] == ' ' && NextSign(t[1..]) == '=')
  }

  function FieldsFrom(t: string): (r: string)
    ensures |r| <= |t|
  {
    if t == "" || FieldsStart(t) then t else FieldsFrom(t[1..])
  }

  /** A message as read: exactly what was logged if it was in quotes, else
      with its control characters still escaped. */
  datatype Said = Exactly(message: string) | Printed(escaped: string)

  function ReadMessage(t: string): Option<(Said, string)> {
    if t != "" && t[0] == '"' then
      match ReadQuotes(Quoted, t)
      case None => None
      case Some((s, rest)) => Some((Exactly(s), rest))
    else Some((Printed(t[..|t| - |FieldsFrom(t)|]), FieldsFrom(t)))
  }

  function SaidOf(m: string): Said {
    if '=' in m || '"' in m then Exactly(m) else Printed(Escaped(Message, m))
  }

  lemma {:induction false} NextSignIn(m: string, tail: string)
    requires '=' !in m && '\n' !in m
    ensures tail != "" && (tail[0] == ' ' || tail[0] == '\n') ==> NextSign(m + tail) != '='
    ensures tail != "" && tail[0] == '=' && ' ' !in m ==> NextSign(m + tail) == '='
  {
    if m == "" {
      assert m + tail == tail;
    } else {
      assert (m + tail)[1..] == m[1..] + tail;
      NextSignIn(m[1..], tail);
    }
  }

  lemma {:induction false} FieldsFromIs(m: string, tail: string)
    requires '=' !in m && '\n' !in m && FieldsStart(tail)
    ensures FieldsFrom(m + tail) == tail
  {
    if m == "" {
      assert m + tail == tail;
    } else {
      assert (m + tail)[1..] == m[1..] + tail;
      NextSignIn(m[1..], tail);
      FieldsFromIs(m[1..], tail);
    }
  }

  lemma FieldsStartThere(items: seq<Item>)
    requires ValidItems(false, items)
    ensures FieldsStart(ItemsText(false, items) + "\n")
  {
    if items == [] {
      assert ItemsText(false, items) + "\n" == "\n";
    } else {
      ItemsTextFirst(false, items);
      var key, datum, rest := items[0].key, DatumText(false, items[0].value), ItemsText(false, items[1..]) + "\n";
      FourParts(' ', key, '=', datum, rest);
      Associative(ItemText(false, items[0]), ItemsText(false, items[1..]), "\n");
      NextSignIn(key, "=" + (datum + rest));
    }
  }

  lemma {:induction false} EscapedKeepsSigns(m: string)
    requires '=' !in m && '"' !in m
    ensures '=' !in Escaped(Message, m) && '"' !in Escaped(Message, m)
  {
    if m != "" {
      EscapedKeepsSigns(m[1..]);
      assert m[0] in m && '=' !in EscapeChar(Message, m[0]) && '"' !in EscapeChar(Message, m[0]);
    }
  }

  /** Whatever the message, the fields start where it ends. */
  lemma MessageReads(m: string, items: seq<Item>)
    requires ValidItems(false, items)
    ensures var tail := ItemsText(false, items) + "\n"; ReadMessage(MessageText(m) + tail) == Some((SaidOf(m), tail))
  {
    var tail := ItemsText(false, items) + "\n";
    if '=' in m || '"' in m {
      QuotesRead(Quoted, m, tail);
    } else {
      var e := Escaped(Message, m);
      EscapedOneLine(Message, m);
      EscapedKeepsSigns(m);
      FieldsStartThere(items);
      FieldsFromIs(e, tail);
      ItemsStop(false, items);
      assert (e + tail)[..|e|] == e;
      assert (e + tail)[0] == if e == "" then tail[0] else e[0];
    }
  }

  // --- Whole lines in text ---

  datatype Line = Line(stamp: string, level: string, said: Said, items: seq<Item>)

  function SpaceAt(t: string): (r: string)
    ensures |r| <= |t|
  {
    if t == "" || t[0] == ' ' then t else SpaceAt(t[1..])
  }

  /** A word and what follows the space after it. */
  function ReadWord(t: string): Option<(string, string)> {
    var rest := SpaceAt(t);
    if rest == "" then None else Some((t[..|t| - |rest|], rest[1..]))
  }

  function ReadLine(t: string): Option<Line> {
    match ReadWord(t)
    case None => None
    case Some((stamp, afterStamp)) =>
      match ReadWord(afterStamp)
      case None => None
      case Some((level, afterLevel)) =>
        match ReadMessage(afterLevel)
        case None => None
        case Some((said, rest)) =>
          match ReadItems(false, rest)
          case None => None
          case Some(items) => Some(Line(stamp, level, said, items))
  }

  lemma {:induction false} SpaceAtIs(word: string, rest: string)
    requires ' ' !in word
    ensures SpaceAt(word + (" " + rest)) == " " + rest
  {
    if word == "" {
      assert word + (" " + rest) == " " + rest;
    } else {
      assert (word + (" " + rest))[1..] == word[1..] + (" " + rest);
      SpaceAtIs(word[1..], rest);
    }
  }

  lemma WordReads(word: string, rest: string)
    requires ' ' !in word
    ensures ReadWord(word + (" " + rest)) == Some((word, rest))
  {
    SpaceAtIs(word, rest);
    assert (word + (" " + rest))[..|word|] == word && (" " + rest)[1..] == rest;
  }

  /** A line in text reads back as what it says. */
  lemma LineReads(stamp: string, level: string, m: string, items: seq<Item>)
    requires ' ' !in stamp && ' ' !in level && ValidItems(false, items)
    ensures ReadLine(stamp + " " + level + " " + MessageText(m) + ItemsText(false, items) + "\n")
      == Some(Line(stamp, level, SaidOf(m), items))
  {
    var tail := ItemsText(false, items) + "\n";
    LineParts(stamp, level, MessageText(m), ItemsText(false, items));
    WordReads(stamp, level + (" " + (MessageText(m) + tail)));
    WordReads(level, MessageText(m) + tail);
    MessageReads(m, items);
    ItemsRead(false, items);
  }

  lemma LineParts(stamp: string, level: string, message: string, items: string)
    ensures stamp + " " + level + " " + message + items + "\n"
      == stamp + (" " + (level + (" " + (message + (items + "\n")))))
  {
  }
}
