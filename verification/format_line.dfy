/** `format_line` itself: what it writes is one line, which reads back as the
    message and the fields it was given. */
module FormatLine {
  import opened Basics
  import opened Escape
  import opened LogLine
  import opened Timestamp

  // --- Small texts ---

  lemma TokenAsText(t: string)
    requires IsToken(t)
    ensures TextOf(t) == t
  {
  }

  lemma IntegerIsToken(n: int)
    ensures IsToken(Integer(n))
  {
    DecimalDigits(if n < 0 then -n else n);
  }

  lemma ItemOfValid(json: bool, f: Field)
    requires f.value.F64? ==> IsToken(f.value.shown)
    ensures ValidItem(json, ItemOf(json, f))
  {
    match f.value
    case U64(n) => IntegerIsToken(n);
    case I64(n) => IntegerIsToken(n);
    case _ =>
  }

  predicate NoEscapes(s: string) {
    forall i | 0 <= i < |s| :: ' ' <= s[i] < 0x7f as char && s[i] != '"' && s[i] != '\\'
  }

  function SimpleText(json: bool, key: string, t: string): string {
    if json then "," + ("\"" + key + "\"") + ":" + t else " " + key + "=" + t
  }

  function SimpleItem(json: bool, key: string, t: string): Item {
    Item(key, if json then Token(t) else Text(t))
  }

  /** Simple keys and tokens are written as they are. */
  lemma SimpleItemText(json: bool, key: string, t: string)
    requires NoEscapes(key) && IsToken(t)
    ensures ItemText(json, SimpleItem(json, key, t)) == SimpleText(json, key, t)
  {
    EscapedAsIs(key);
    TokenAsText(t);
  }

  // --- Fields ---

  method WriteValue(json: bool, out0: string, v: Value) returns (out: string)
    requires v.F64? ==> IsToken(v.shown)
    ensures out == out0 + DatumText(json, ItemOf(json, Field("", v)).value)
  {
    out := out0;
    match v {
      case Str(s) =>
        var capped := Cap(s);
        if json {
          out := JsonString(out, capped);
        } else {
          out := TextValue(out, capped);
        }
      case U64(n) =>
        IntegerIsToken(n);
        out := out + Integer(n);
      case I64(n) =>
        IntegerIsToken(n);
        out := out + Integer(n);
      case F64(shown, finite) =>
        out := out + if json && !finite then "null" else shown;
      case Bool(b) =>
        out := out + if b then "true" else "false";
    }
    if !v.Str? && !json {
      TokenAsText(Shown(v));
    }
  }

  method WriteField(json: bool, out0: string, f: Field) returns (out: string)
    requires f.value.F64? ==> IsToken(f.value.shown)
    ensures out == out0 + ItemText(json, ItemOf(json, f))
  {
    var key := Cap(FieldKey(f.key));
    if json {
      out := JsonString(out0 + ",", key);
      out := out + ":";
    } else {
      out := TextKey(out0 + " ", key);
      out := out + "=";
    }
    Grouped(out0, [Lead(json)], KeyText(json, ItemOf(json, f).key), [Mark(json)], DatumText(json, ItemOf(json, f).value));
    out := WriteValue(json, out, f.value);
  }

  function TextWith(json: bool, start: string, fields: seq<Field>, n: nat): string
    requires n <= |fields|
  {
    start + ItemsText(json, ItemsOf(json, fields[..n]))
  }

  function LengthWith(json: bool, start: string, fields: seq<Field>, n: nat): nat
    requires n <= |fields|
  {
    Utf8(TextWith(json, start, fields, n))
  }

  /** At none of the first `n` fields was the line too long already. */
  predicate ShortBefore(json: bool, start: string, fields: seq<Field>, n: nat)
    requires n <= |fields|
  {
    n > 0 ==> LengthWith(json, start, fields, n - 1) <= MAX_LINE && ShortBefore(json, start, fields, n - 1)
  }

  /** The fields kept are those before the line got too long. */
  predicate KeptUntilTooLong(json: bool, start: string, fields: seq<Field>, n: nat) {
    && n <= |fields|
    && ShortBefore(json, start, fields, n)
    && (n < |fields| ==> LengthWith(json, start, fields, n) > MAX_LINE)
  }

  lemma ItemAdded(json: bool, start: string, items: seq<Item>, i: Item)
    ensures start + ItemsText(json, items) + ItemText(json, i) == start + ItemsText(json, items + [i])
  {
    ItemsTextJoins(json, items, [i]);
    ItemsTextOne(json, i);
    Associative(start, ItemsText(json, items), ItemText(json, i));
  }

  lemma OneMoreField(json: bool, fields: seq<Field>, n: nat)
    requires n < |fields|
    ensures ItemsOf(json, fields[..n + 1]) == ItemsOf(json, fields[..n]) + [ItemOf(json, fields[n])]
  {
    assert fields[..n + 1][..n] == fields[..n];
  }

  lemma CutShortText(json: bool)
    ensures ItemText(json, CutShort(json)) == SimpleText(json, "truncated", "true")
  {
    assert NoEscapes("truncated") && IsToken("true");
    SimpleItemText(json, "truncated", "true");
  }

  method MarkCutShort(json: bool, out0: string) returns (out: string)
    ensures out == out0 + ItemText(json, CutShort(json))
  {
    CutShortText(json);
    out := out0 + SimpleText(json, "truncated", "true");
  }

  /** `n` fields have been written, and the line was short before each. */
  predicate Writing(json: bool, start: string, fields: seq<Field>, n: nat, out: string) {
    n <= |fields| && out == TextWith(json, start, fields, n) && ShortBefore(json, start, fields, n)
  }

  /** The loop over the fields, which is the same in both formats. */
  method WriteWhileShort(json: bool, start: string, fields: seq<Field>) returns (out: string, n: nat)
    requires ValidFields(fields)
    ensures KeptUntilTooLong(json, start, fields, n) && out == TextWith(json, start, fields, n)
  {
    out, n := start, 0;
    NoneYet(json, start, fields);
    while n < |fields| && Utf8(out) <= MAX_LINE
      invariant Writing(json, start, fields, n, out)
    {
      out := WriteNext(json, start, fields, n, out);
      n := n + 1;
    }
    LongOrDone(json, start, fields, n, out);
  }

  lemma NoneYet(json: bool, start: string, fields: seq<Field>)
    ensures Writing(json, start, fields, 0, start)
  {
    assert fields[..0] == [];
  }

  lemma LongOrDone(json: bool, start: string, fields: seq<Field>, n: nat, out: string)
    requires Writing(json, start, fields, n, out) && (n < |fields| ==> Utf8(out) > MAX_LINE)
    ensures KeptUntilTooLong(json, start, fields, n)
  {
  }

  method WriteNext(json: bool, ghost start: string, fields: seq<Field>, n: nat, out0: string) returns (out: string)
    requires ValidFields(fields) && Writing(json, start, fields, n, out0) && n < |fields| && Utf8(out0) <= MAX_LINE
    ensures Writing(json, start, fields, n + 1, out)
  {
    OneMoreField(json, fields, n);
    ItemAdded(json, start, ItemsOf(json, fields[..n]), ItemOf(json, fields[n]));
    ShortSoFar(json, start, fields, n, out0);
    out := WriteField(json, out0, fields[n]);
  }

  lemma ShortSoFar(json: bool, start: string, fields: seq<Field>, n: nat, out: string)
    requires Writing(json, start, fields, n, out) && n < |fields| && Utf8(out) <= MAX_LINE
    ensures ShortBefore(json, start, fields, n + 1)
  {
  }

  method WriteFields(json: bool, start: string, fields: seq<Field>) returns (out: string, n: nat)
    requires ValidFields(fields)
    ensures KeptUntilTooLong(json, start, fields, n) && out == start + ItemsText(json, Kept(json, fields, n))
  {
    out, n := WriteWhileShort(json, start, fields);
    if n < |fields| {
      ItemAdded(json, start, ItemsOf(json, fields[..n]), CutShort(json));
      out := MarkCutShort(json, out);
    } else {
      assert Kept(json, fields, n) == ItemsOf(json, fields[..n]);
    }
  }

  lemma {:induction false} ItemsOfValid(json: bool, fields: seq<Field>)
    requires ValidFields(fields)
    ensures ValidItems(json, ItemsOf(json, fields))
  {
    if fields != [] {
      ItemsOfValid(json, fields[..|fields| - 1]);
      ItemOfValid(json, fields[|fields| - 1]);
    }
  }

  lemma KeptValid(json: bool, fields: seq<Field>, n: nat)
    requires n <= |fields| && ValidFields(fields)
    ensures ValidItems(json, Kept(json, fields, n))
  {
    ItemsOfValid(json, fields[..n]);
    CutShortValid(json);
    JoinedValid(json, ItemsOf(json, fields[..n]), if n < |fields| then [CutShort(json)] else []);
  }

  lemma CutShortValid(json: bool)
    ensures ValidItem(json, CutShort(json))
  {
  }

  lemma JoinedValid(json: bool, a: seq<Item>, b: seq<Item>)
    requires ValidItems(json, a) && ValidItems(json, b)
    ensures ValidItems(json, a + b)
  {
  }

  // --- One line ---

  /** Exactly one newline, at the end. */
  predicate OneLine(t: string) {
    t != "" && t[|t| - 1] == '\n' && '\n' !in t[..|t| - 1]
  }

  lemma ItemOneLine(json: bool, i: Item)
    requires ValidItem(json, i)
    ensures '\n' !in ItemText(json, i)
  {
    KeyOneLine(json, i.key);
    DatumOneLine(json, i.value);
  }

  lemma KeyOneLine(json: bool, key: string)
    requires !json ==> forall j | 0 <= j < |key| :: Plain(key[j])
    ensures '\n' !in KeyText(json, key)
  {
    EscapedOneLine(Json, key);
  }

  lemma DatumOneLine(json: bool, d: Datum)
    requires json && d.Token? ==> IsToken(d.s)
    ensures '\n' !in DatumText(json, d)
  {
    EscapedOneLine(Json, d.s);
    EscapedOneLine(Quoted, d.s);
  }

  lemma {:induction false} ItemsOneLine(json: bool, items: seq<Item>)
    requires ValidItems(json, items)
    ensures '\n' !in ItemsText(json, items)
    decreases |items|
  {
    if items != [] {
      var last := |items| - 1;
      ItemsOneLine(json, items[..last]);
      ItemOneLine(json, items[last]);
    }
  }

  lemma MessageOneLine(m: string)
    ensures '\n' !in MessageText(m)
  {
    EscapedOneLine(Quoted, m);
    EscapedOneLine(Message, m);
  }

  // --- In JSON ---

  /** An object begun with these items (the first of several has no comma). */
  predicate Begun(out: string, items: seq<Item>) {
    out != "" && out[0] == '{' && "," + out[1..] == ItemsText(true, items)
  }

  lemma BegunGrows(out: string, items: seq<Item>, more: seq<Item>)
    requires Begun(out, items)
    ensures Begun(out + ItemsText(true, more), items + more)
  {
    ItemsTextJoins(true, items, more);
    AfterComma(out, ItemsText(true, more), ItemsText(true, items));
  }

  lemma AfterComma(out: string, t: string, a: string)
    requires out != "" && "," + out[1..] == a
    ensures "," + (out + t)[1..] == a + t
  {
    assert (out + t)[1..] == out[1..] + t;
  }

  lemma BegunGrowsByOne(out: string, items: seq<Item>, i: Item)
    requires Begun(out, items)
    ensures Begun(out + ItemText(true, i), items + [i])
  {
    BegunGrows(out, items, [i]);
    ItemsTextOne(true, i);
  }

  lemma ObjectReads(out: string, items: seq<Item>)
    requires Begun(out, items) && ValidItems(true, items)
    ensures OneLine(out + "}" + "\n") && ReadObject(out + "}" + "\n") == Some(items)
  {
    ItemsOneLine(true, items);
    ItemsRead(true, items);
    ClosesObject(out, ItemsText(true, items));
    LastNewline(out + "}");
  }

  lemma ClosesObject(out: string, items: string)
    requires out != "" && out[0] == '{' && "," + out[1..] == items && '\n' !in items
    ensures "," + (out + "}" + "\n")[1..] == items + "}\n" && '\n' !in out + "}"
  {
    assert (out + "}" + "\n")[1..] == out[1..] + "}\n";
    forall i | 0 <= i < |out| ensures out[i] != '\n' {
      assert i > 0 ==> out[i] == items[i];
    }
  }

  function StringItem(key: string, s: string): Item {
    Item(key, Text(s))
  }

  function Simple(key: string): string {
    "\"" + key + "\""
  }

  lemma StringItemText(key: string, s: string)
    requires NoEscapes(key)
    ensures ItemText(true, StringItem(key, s)) == "," + Simple(key) + ":" + InQuotes(Json, s)
  {
    EscapedAsIs(key);
  }

  lemma Braced(p: string, q: string, r: string)
    ensures "{" + p + q + r != "" && ("{" + p + q + r)[0] == '{'
    ensures "," + ("{" + p + q + r)[1..] == "," + p + q + r
  {
    assert ("{" + p + q + r)[1..] == p + q + r;
  }

  lemma FirstMember(key: string, s: string)
    requires NoEscapes(key) && NoEscapes(s)
    ensures Begun("{" + Simple(key) + ":" + Simple(s), [StringItem(key, s)])
  {
    EscapedAsIs(s);
    StringItemText(key, s);
    ItemsTextOne(true, StringItem(key, s));
    Braced(Simple(key), ":", Simple(s));
  }

  lemma NextMember(out: string, items: seq<Item>, key: string, s: string)
    requires Begun(out, items) && NoEscapes(key)
    ensures Begun(out + "," + Simple(key) + ":" + InQuotes(Json, s), items + [StringItem(key, s)])
  {
    StringItemText(key, s);
    BegunGrowsByOne(out, items, StringItem(key, s));
    Grouped(out, ",", Simple(key), ":", InQuotes(Json, s));
  }

  lemma Grouped(a: string, b: string, c: string, d: string, e: string)
    ensures a + b + c + d + e == a + (b + c + d + e)
  {
  }

  /** A member whose value needs no escaping and is not escaped. */
  method AddSimple(out0: string, ghost items: seq<Item>, key: string, s: string) returns (out: string)
    requires Begun(out0, items) && NoEscapes(key) && NoEscapes(s)
    ensures Begun(out, items + [StringItem(key, s)])
  {
    EscapedAsIs(s);
    NextMember(out0, items, key, s);
    out := out0 + "," + Simple(key) + ":" + Simple(s);
  }

  method AddString(out0: string, ghost items: seq<Item>, key: string, s: string) returns (out: string)
    requires Begun(out0, items) && NoEscapes(key)
    ensures Begun(out, items + [StringItem(key, s)])
  {
    NextMember(out0, items, key, s);
    out := JsonString(out0 + "," + Simple(key) + ":", s);
  }

  lemma PlainKeys()
    ensures NoEscapes("ts") && NoEscapes("level") && NoEscapes("msg")
  {
  }

  function JsonHead(stamp: string, level: string, message: string): seq<Item> {
    [StringItem("ts", stamp)] + [StringItem("level", level)] + [StringItem("msg", message)]
  }

  method BeginObject(stamp: string, level: string, message: string) returns (out: string)
    requires NoEscapes(stamp) && NoEscapes(level)
    ensures Begun(out, JsonHead(stamp, level, message))
  {
    PlainKeys();
    FirstMember("ts", stamp);
    out := "{" + Simple("ts") + ":" + Simple(stamp);
    ghost var items := [StringItem("ts", stamp)];
    out := AddSimple(out, items, "level", level);
    out := AddString(out, items + [StringItem("level", level)], "msg", message);
  }

  /** The task's number, if there is one: a plain token in both formats. */
  method AddTask(json: bool, out0: string, task: Option<nat>) returns (out: string)
    ensures out == out0 + ItemsText(json, TaskItem(json, task))
  {
    out := out0;
    if task.Some? {
      var n := Integer(task.value);
      IntegerIsToken(task.value);
      SimpleItemText(json, "task", n);
      ItemsTextOne(json, SimpleItem(json, "task", n));
      out := out + SimpleText(json, "task", n);
    }
  }

  lemma TaskItemValid(json: bool, task: Option<nat>)
    ensures ValidItems(json, TaskItem(json, task))
  {
    if task.Some? { IntegerIsToken(task.value); }
  }

  lemma StampNeedsNoEscapes(t: string)
    requires StampChars(t)
    ensures NoEscapes(t) && ' ' !in t && '\n' !in t
  {
  }

  /** Everything said in a line in JSON. */
  function JsonSays(stamp: string, level: string, message: string, task: Option<nat>, kept: seq<Item>): seq<Item> {
    JsonHead(stamp, level, message) + TaskItem(true, task) + kept
  }

  lemma JsonSaysValid(stamp: string, level: string, message: string, task: Option<nat>, kept: seq<Item>)
    requires ValidItems(true, kept)
    ensures ValidItems(true, JsonSays(stamp, level, message, task, kept))
  {
    TaskItemValid(true, task);
  }

  method BeginLine(stamp: string, level: string, message: string, task: Option<nat>) returns (out: string)
    requires NoEscapes(stamp) && NoEscapes(level)
    ensures Begun(out, JsonHead(stamp, level, message) + TaskItem(true, task))
  {
    out := BeginObject(stamp, level, message);
    BegunGrows(out, JsonHead(stamp, level, message), TaskItem(true, task));
    out := AddTask(true, out, task);
  }

  method FormatJson(stamp: string, level: string, message: string, fields: seq<Field>, task: Option<nat>)
    returns (out: string, ghost start: string, ghost n: nat)
    requires NoEscapes(stamp) && NoEscapes(level) && ValidFields(fields)
    ensures OneLine(out)
    ensures Begun(start, JsonHead(stamp, level, Capped(message)) + TaskItem(true, task))
    ensures KeptUntilTooLong(true, start, fields, n)
    ensures ReadObject(out) == Some(JsonSays(stamp, level, Capped(message), task, Kept(true, fields, n)))
  {
    var m := Cap(message);
    out := BeginLine(stamp, level, m, task);
    start := out;
    var count;
    out, count := WriteFields(true, out, fields);
    n := count;
    ghost var kept := Kept(true, fields, n);
    BegunGrows(start, JsonHead(stamp, level, m) + TaskItem(true, task), kept);
    KeptValid(true, fields, n);
    JsonSaysValid(stamp, level, m, task, kept);
    ObjectReads(out, JsonSays(stamp, level, m, task, kept));
    out := out + "}" + "\n";
  }

  // --- In text ---

  function TextHead(stamp: string, level: string, message: string): string {
    stamp + " " + level + " " + MessageText(message)
  }

  lemma FormattedReads(stamp: string, level: string, m: string, kept: seq<Item>, task: Option<nat>)
    requires ' ' !in stamp && ' ' !in level && '\n' !in stamp && '\n' !in level && ValidItems(false, kept)
    ensures var out := TextHead(stamp, level, m) + ItemsText(false, kept) + ItemsText(false, TaskItem(false, task)) + "\n";
      OneLine(out) && ReadLine(out) == Some(Line(stamp, level, SaidOf(m), kept + TaskItem(false, task)))
  {
    var last := TaskItem(false, task);
    TaskItemValid(false, task);
    JoinedValid(false, kept, last);
    ItemsTextJoins(false, kept, last);
    Associative(TextHead(stamp, level, m), ItemsText(false, kept), ItemsText(false, last));
    LineReads(stamp, level, m, kept + last);
    TextOneLine(stamp, level, m, kept + last);
  }

  lemma TextOneLine(stamp: string, level: string, m: string, items: seq<Item>)
    requires '\n' !in stamp && '\n' !in level && ValidItems(false, items)
    ensures OneLine(TextHead(stamp, level, m) + ItemsText(false, items) + "\n")
  {
    MessageOneLine(m);
    ItemsOneLine(false, items);
    LastNewline(TextHead(stamp, level, m) + ItemsText(false, items));
  }

  lemma LastNewline(t: string)
    requires '\n' !in t
    ensures OneLine(t + "\n")
  {
    assert (t + "\n")[..|t|] == t;
  }

  method FormatText(stamp: string, level: string, message: string, fields: seq<Field>, task: Option<nat>)
    returns (out: string, ghost n: nat)
    requires ' ' !in stamp && ' ' !in level && '\n' !in stamp && '\n' !in level && ValidFields(fields)
    ensures OneLine(out) && KeptUntilTooLong(false, TextHead(stamp, level, Capped(message)), fields, n)
    ensures ReadLine(out)
      == Some(Line(stamp, level, SaidOf(Capped(message)), Kept(false, fields, n) + TaskItem(false, task)))
  {
    out := stamp + " " + level + " ";
    var m := Cap(message);
    if '=' in m || '"' in m {
      out := Quote(out, m);
    } else {
      out := EscapeControls(out, m);
    }
    var count;
    out, count := WriteFields(false, out, fields);
    n := count;
    out := AddTask(false, out, task);
    KeptValid(false, fields, n);
    FormattedReads(stamp, level, m, Kept(false, fields, n), task);
    out := out + "\n";
  }

  // --- Either way ---

  lemma LevelNames(level: nat)
    ensures NoEscapes(LevelName(level)) && ' ' !in UpperLevel(level) && '\n' !in UpperLevel(level)
  {
  }

  /** What a line in JSON says, having kept `n` of the fields. */
  ghost predicate SaysInJson(out: string, ms: int, level: nat, message: string, fields: seq<Field>, task: Option<nat>, n: nat) {
    && n <= |fields|
    && ReadObject(out) == Some(JsonSays(Rfc3339(ms), LevelName(level), Capped(message), task, Kept(true, fields, n)))
    && exists start :: Begun(start, JsonHead(Rfc3339(ms), LevelName(level), Capped(message)) + TaskItem(true, task))
                       && KeptUntilTooLong(true, start, fields, n)
  }

  /** What a line in text says, having kept `n` of the fields. */
  predicate SaysInText(out: string, ms: int, level: nat, message: string, fields: seq<Field>, task: Option<nat>, n: nat) {
    && KeptUntilTooLong(false, TextHead(Rfc3339(ms), UpperLevel(level), Capped(message)), fields, n)
    && ReadLine(out) == Some(Line(Rfc3339(ms), UpperLevel(level), SaidOf(Capped(message)),
                                  Kept(false, fields, n) + TaskItem(false, task)))
  }

  /** One line, from which everything said can be read back: the timestamp, the
      level, the message, the task and the fields up to where it got too long. */
  method FormatLine(json: bool, ms: int, level: nat, message: string, fields: seq<Field>, task: Option<nat>)
    returns (out: string, ghost n: nat)
    requires ValidFields(fields)
    ensures OneLine(out)
    ensures if json then SaysInJson(out, ms, level, message, fields, task, n)
            else SaysInText(out, ms, level, message, fields, task, n)
  {
    var stamp := Rfc3339(ms);
    Rfc3339Chars(ms);
    StampNeedsNoEscapes(stamp);
    LevelNames(level);
    if json {
      ghost var start;
      out, start, n := FormatJson(stamp, LevelName(level), message, fields, task);
    } else {
      out, n := FormatText(stamp, UpperLevel(level), message, fields, task);
    }
  }
}
