/** The scan for a forbidden text reads the raw reply without trusting its structure. Whatever the
    spacing and the escapes, it sees every text that the parser takes out of the reply. */
module ReplyScan {
  import opened Wrappers
  import opened Json
  import opened Components
  import opened ComponentLaws

  /** The needle is in a text or a name somewhere in the value. */
  ghost predicate Holds(v: Value, needle: string) {
    match v
    case Text(text) => Contains(text, needle)
    case List(items) => exists i | 0 <= i < |items| :: Holds(items[i], needle)
    case Object(fields) => exists k | k in fields :: Contains(k, needle) || Holds(fields[k], needle)
    case _ => false
  }

  /** The same for fields as written, overwritten ones included. */
  ghost predicate FieldsHold(fields: seq<(string, Value)>, needle: string) {
    exists i | 0 <= i < |fields| :: Contains(fields[i].0, needle) || Holds(fields[i].1, needle)
  }

  // ---------------------------------------------------------------- characters and strings

  lemma UnescapeStep(s: string)
    requires s != "" && s[0] != '\\'
    ensures Unescape(s) == [s[0]] + Unescape(s[1..])
  {}

  /** What the reader takes for a string the scan decodes to the same text. */
  lemma {:induction false} UnescapeString(s: string)
    requires ReadString(s).Some?
    ensures Unescape(s) == ReadString(s).value.0 + "\"" + Unescape(ReadString(s).value.1)
    decreases |s|
  {
    hide Unescape, Escape;
    if s[0] == '\\' {
      UnescapeOne(s);
      UnescapeString(s[Escape(s).value.1..]);
    } else {
      UnescapeStep(s);
      if s[0] != '"' { UnescapeString(s[1..]); }
    }
  }

  lemma {:induction false} UnescapeBlanks(s: string) returns (seen: string)
    ensures Unescape(s) == seen + Unescape(SkipBlanks(s))
    decreases |s|
  {
    seen := "";
    if s != "" && Blank(s[0]) {
      UnescapeStep(s);
      var rest := UnescapeBlanks(s[1..]);
      seen := [s[0]] + rest;
    }
  }

  /** A word of the notation, which holds no escape. */
  lemma {:induction false} UnescapeWord(s: string, word: string)
    requires StartsWith(s, word) && '\\' !in word
    ensures Unescape(s) == word + Unescape(s[|word|..])
    decreases |word|
  {
    hide Unescape;
    if word == "" {
      assert s[0..] == s;
    } else {
      assert s[0] == word[0] && s[0] in word;
      UnescapeStep(s);
      assert s[1..][..|word| - 1] == word[1..];
      UnescapeWord(s[1..], word[1..]);
      assert s[1..][|word| - 1..] == s[|word|..];
      assert word == [word[0]] + word[1..];
    }
  }

  // ---------------------------------------------------------------- values

  lemma {:induction false} CollectFrom(fields: seq<(string, Value)>, k: string)
    requires k in Collect(fields)
    ensures exists i | 0 <= i < |fields| :: fields[i] == (k, Collect(fields)[k])
    decreases |fields|
  {
    var n := |fields| - 1;
    if fields[n].0 == k { assert fields[n] == (k, Collect(fields)[k]); } else { CollectFrom(fields[..n], k); }
  }

  lemma CollectHolds(fields: seq<(string, Value)>, needle: string)
    requires Holds(Object(Collect(fields)), needle)
    ensures FieldsHold(fields, needle)
  {
    var all := Collect(fields);
    var k :| k in all && (Contains(k, needle) || Holds(all[k], needle));
    CollectFrom(fields, k);
    hide Contains, Holds, Collect;
  }

  /** What is found in a part is found in the whole. */
  lemma Found(a: string, s: string, b: string, needle: string, whole: string)
    requires Contains(s, needle) && whole == a + s + b
    ensures Contains(whole, needle)
  {
    ContainsInside(a, s, b, needle);
  }

  /** The value read off `s` is the one read where the blanks end. */
  lemma AfterBlanks(s: string)
    requires ReadValue(s).Some?
    ensures SkipBlanks(s) != "" && SkipBlanks(SkipBlanks(s)) == SkipBlanks(s)
            && ReadValue(SkipBlanks(s)) == ReadValue(s)
  {
    SkipTwice(s);
    hide SkipBlanks;
  }

  lemma {:induction false} SkipTwice(s: string)
    ensures SkipBlanks(SkipBlanks(s)) == SkipBlanks(s)
  {
    if s != "" && Blank(s[0]) { SkipTwice(s[1..]); }
  }

  /** The scan of a value, whatever follows it. */
  lemma {:induction false} SeenValue(s: string, needle: string) returns (seen: string)
    requires ReadValue(s).Some?
    ensures Unescape(s) == seen + Unescape(ReadValue(s).value.1)
    ensures Holds(ReadValue(s).value.0, needle) ==> Contains(seen, needle)
    decreases |s|, 2
  {
    hide ReadValue, Unescape, Holds, Contains, SkipBlanks;
    AfterBlanks(s);
    var blanks := UnescapeBlanks(s);
    var body := SeenBody(SkipBlanks(s), needle);
    seen := blanks + body;
    assert seen + Unescape(ReadValue(s).value.1) == blanks + (body + Unescape(ReadValue(s).value.1));
    if Contains(body, needle) { Found(blanks, body, "", needle, seen); }
  }

  lemma {:induction false} SeenBody(t: string, needle: string) returns (seen: string)
    requires ReadValue(t).Some? && t != "" && SkipBlanks(t) == t
    ensures Unescape(t) == seen + Unescape(ReadValue(t).value.1)
    ensures Holds(ReadValue(t).value.0, needle) ==> Contains(seen, needle)
    decreases |t|, 1
  {
    if t[0] == '"' {
      seen := SeenText(t, needle);
    } else if t[0] == '[' {
      seen := SeenList(t, needle);
    } else if t[0] == '{' {
      seen := SeenObject(t, needle);
    } else {
      seen := SeenWord(t, needle);
    }
    hide ReadValue, Unescape, Holds, Contains, SkipBlanks;
  }

  lemma SeenWord(t: string, needle: string) returns (seen: string)
    requires ReadValue(t).Some? && t != "" && SkipBlanks(t) == t && t[0] != '"' && t[0] != '[' && t[0] != '{'
    ensures Unescape(t) == seen + Unescape(ReadValue(t).value.1) && !Holds(ReadValue(t).value.0, needle)
  {
    hide Unescape, SkipBlanks, ReadItems, ReadFields, ReadString;
    seen := if StartsWith(t, "null") then "null" else if StartsWith(t, "true") then "true" else "false";
    UnescapeWord(t, seen);
  }

  lemma SeenText(t: string, needle: string) returns (seen: string)
    requires ReadValue(t).Some? && t != "" && SkipBlanks(t) == t && t[0] == '"'
    ensures Unescape(t) == seen + Unescape(ReadValue(t).value.1)
    ensures Holds(ReadValue(t).value.0, needle) ==> Contains(seen, needle)
  {
    hide Unescape, SkipBlanks, ReadItems, ReadFields, ReadString, Contains;
    var (text, rest) := ReadString(t[1..]).value;
    UnescapeStep(t);
    UnescapeString(t[1..]);
    seen := "\"" + text + "\"";
    assert Unescape(t) == "\"" + (text + "\"" + Unescape(rest));
    if Contains(text, needle) { Found("\"", text, "\"", needle, seen); }
  }

  /** What stands between an opening bracket and the first thing inside. */
  lemma SeenOpening(t: string) returns (opening: string)
    requires t != "" && t[0] != '\\'
    ensures Unescape(t) == opening + Unescape(SkipBlanks(t[1..]))
  {
    hide Unescape, SkipBlanks;
    UnescapeStep(t);
    var blanks := UnescapeBlanks(t[1..]);
    opening := [t[0]] + blanks;
  }

  lemma {:induction false} SeenList(t: string, needle: string) returns (seen: string)
    requires ReadValue(t).Some? && t != "" && SkipBlanks(t) == t && t[0] == '['
    ensures Unescape(t) == seen + Unescape(ReadValue(t).value.1)
    ensures Holds(ReadValue(t).value.0, needle) ==> Contains(seen, needle)
    decreases |t|, 0
  {
    hide Unescape, SkipBlanks, ReadItems, ReadFields, ReadString, Contains;
    var opening := SeenOpening(t);
    var u := SkipBlanks(t[1..]);
    if u != "" && u[0] == ']' {
      UnescapeStep(u);
      seen := opening + "]";
      assert seen + Unescape(u[1..]) == opening + ("]" + Unescape(u[1..]));
    } else {
      var inner := SeenItems(u, needle);
      var rest := ReadItems(u).value.1;
      seen := opening + inner;
      assert seen + Unescape(rest) == opening + (inner + Unescape(rest));
      if Contains(inner, needle) { Found(opening, inner, "", needle, seen); }
    }
  }

  lemma {:induction false} SeenObject(t: string, needle: string) returns (seen: string)
    requires ReadValue(t).Some? && t != "" && SkipBlanks(t) == t && t[0] == '{'
    ensures Unescape(t) == seen + Unescape(ReadValue(t).value.1)
    ensures Holds(ReadValue(t).value.0, needle) ==> Contains(seen, needle)
    decreases |t|, 0
  {
    hide Unescape, SkipBlanks, ReadItems, ReadFields, ReadString, Contains, Holds;
    var opening := SeenOpening(t);
    var u := SkipBlanks(t[1..]);
    if u != "" && u[0] == '}' {
      UnescapeStep(u);
      seen := opening + "}";
      assert seen + Unescape(u[1..]) == opening + ("}" + Unescape(u[1..]));
      EmptyHoldsNothing(needle);
    } else {
      var inner := SeenFields(u, needle);
      var (fields, rest) := ReadFields(u).value;
      seen := opening + inner;
      assert seen + Unescape(rest) == opening + (inner + Unescape(rest));
      if Holds(Object(Collect(fields)), needle) { CollectHolds(fields, needle); }
      if Contains(inner, needle) { Found(opening, inner, "", needle, seen); }
    }
  }

  lemma EmptyHoldsNothing(needle: string)
    ensures !Holds(Object(map[]), needle)
  {}

  lemma {:induction false} SeenItems(s: string, needle: string) returns (seen: string)
    requires ReadItems(s).Some?
    ensures Unescape(s) == seen + Unescape(ReadItems(s).value.1)
    ensures Holds(List(ReadItems(s).value.0), needle) ==> Contains(seen, needle)
    decreases |s|, 3
  {
    hide Unescape, SkipBlanks, ReadValue, Contains;
    var (value, more) := ReadValue(s).value;
    var first := SeenValue(s, needle);
    var blanks := UnescapeBlanks(more);
    var t := SkipBlanks(more);
    UnescapeStep(t);
    var head := first + blanks + [t[0]];
    assert Unescape(s) == head + Unescape(t[1..]);
    if Contains(first, needle) { Found("", first, blanks + [t[0]], needle, head); }
    seen := head;
    if t[0] == ',' {
      var rest := SeenItems(t[1..], needle);
      seen := head + rest;
      assert Unescape(s) == seen + Unescape(ReadItems(s).value.1);
      if Contains(head, needle) { Found("", head, rest, needle, seen); }
      if Contains(rest, needle) { Found(head, rest, "", needle, seen); }
      if Holds(List([value] + ReadItems(t[1..]).value.0), needle) {
        HeldByOne(value, ReadItems(t[1..]).value.0, needle);
      }
    } else if Holds(List([value]), needle) {
      assert [value] + [] == [value];
      HeldByOne(value, [], needle);
    }
    hide Holds, ReadItems;
  }

  lemma HeldByOne(value: Value, items: seq<Value>, needle: string)
    requires Holds(List([value] + items), needle)
    ensures Holds(value, needle) || Holds(List(items), needle)
  {
    hide Contains;
    var all := [value] + items;
    var i :| 0 <= i < |all| && Holds(all[i], needle);
    if i > 0 { assert items[i - 1] == all[i]; }
  }

  /** A name, its colon and its value, up to what follows the value. */
  lemma {:induction false} SeenField(s: string, needle: string) returns (seen: string)
    requires FieldReads(s)
    ensures var (name, value, more) := FieldOf(s);
            && Unescape(s) == seen + Unescape(more)
            && (Contains(name, needle) || Holds(value, needle) ==> Contains(seen, needle))
    decreases |s|, 3
  {
    hide Unescape, SkipBlanks, ReadValue, Contains, Holds, ReadString;
    var t := SkipBlanks(s);
    var (name, after) := ReadString(t[1..]).value;
    var u := SkipBlanks(after);
    var b := UnescapeBlanks(s);
    UnescapeStep(t);
    UnescapeString(t[1..]);
    var c := UnescapeBlanks(after);
    UnescapeStep(u);
    var inner := SeenValue(u[1..], needle);
    var rest := ReadValue(u[1..]).value.1;
    var before, between := b + "\"", "\"" + c + ":";
    seen := before + name + between + inner;
    assert Unescape(s) == b + ("\"" + (name + "\"" + (c + (":" + (inner + Unescape(rest))))));
    assert b + ("\"" + (name + "\"" + (c + (":" + (inner + Unescape(rest)))))) == seen + Unescape(rest);
    if Contains(name, needle) { Found(before, name, between + inner, needle, seen); }
    if Contains(inner, needle) { Found(before + name + between, inner, "", needle, seen); }
  }

  predicate FieldReads(s: string) {
    var t := SkipBlanks(s);
    && t != "" && t[0] == '"' && ReadString(t[1..]).Some?
    && var u := SkipBlanks(ReadString(t[1..]).value.1);
    u != "" && u[0] == ':' && ReadValue(u[1..]).Some?
  }

  function FieldOf(s: string): (r: (string, Value, string))
    requires FieldReads(s)
    ensures |r.2| < |s|
  {
    var t := SkipBlanks(s);
    var (name, after) := ReadString(t[1..]).value;
    var (value, more) := ReadValue(SkipBlanks(after)[1..]).value;
    (name, value, more)
  }

  lemma FieldsAre(s: string)
    requires ReadFields(s).Some?
    ensures FieldReads(s)
    ensures var (name, value, more) := FieldOf(s);
            var v := SkipBlanks(more);
            && v != "" && (v[0] == '}' || v[0] == ',')
            && (v[0] == '}' ==> ReadFields(s).value == ([(name, value)], v[1..]))
            && (v[0] == ',' ==>
                  && ReadFields(v[1..]).Some?
                  && ReadFields(s).value == ([(name, value)] + ReadFields(v[1..]).value.0, ReadFields(v[1..]).value.1))
  {
    hide SkipBlanks, ReadString, ReadValue;
  }

  lemma {:induction false} SeenFields(s: string, needle: string) returns (seen: string)
    requires ReadFields(s).Some?
    ensures Unescape(s) == seen + Unescape(ReadFields(s).value.1)
    ensures FieldsHold(ReadFields(s).value.0, needle) ==> Contains(seen, needle)
    decreases |s|, 4
  {
    hide Unescape, SkipBlanks, ReadFields, Contains, Holds, FieldReads, FieldOf, FieldsHold;
    FieldsAre(s);
    var (name, value, more) := FieldOf(s);
    var first := SeenField(s, needle);
    var blanks := UnescapeBlanks(more);
    var v := SkipBlanks(more);
    UnescapeStep(v);
    var head := first + blanks + [v[0]];
    assert Unescape(s) == head + Unescape(v[1..]);
    if Contains(first, needle) { Found("", first, blanks + [v[0]], needle, head); }
    seen := head;
    if v[0] == ',' {
      var rest := SeenFields(v[1..], needle);
      seen := head + rest;
      assert Unescape(s) == seen + Unescape(ReadFields(s).value.1);
      if Contains(head, needle) { Found("", head, rest, needle, seen); }
      if Contains(rest, needle) { Found(head, rest, "", needle, seen); }
      if FieldsHold(ReadFields(s).value.0, needle) { FieldsHeldByOne(name, value, ReadFields(v[1..]).value.0, needle); }
    } else if FieldsHold(ReadFields(s).value.0, needle) {
      assert [(name, value)] + [] == [(name, value)];
      FieldsHeldByOne(name, value, [], needle);
    }
  }

  lemma FieldsHeldByOne(name: string, value: Value, fields: seq<(string, Value)>, needle: string)
    requires FieldsHold([(name, value)] + fields, needle)
    ensures Contains(name, needle) || Holds(value, needle) || FieldsHold(fields, needle)
    ensures fields == [] ==> Contains(name, needle) || Holds(value, needle)
  {
    hide Contains, Holds;
    var all := [(name, value)] + fields;
    var i :| 0 <= i < |all| && (Contains(all[i].0, needle) || Holds(all[i].1, needle));
    if i > 0 { assert fields[i - 1] == all[i]; }
  }

  // ---------------------------------------------------------------- replies

  /** Whatever a reply holds once it is parsed, the scan finds in the raw reply. */
  lemma ScanSeesValue(raw: string, needle: string)
    requires Parse(raw).Some? && Holds(Parse(raw).value, needle)
    ensures Contains(Unescape(raw), needle)
  {
    hide ReadValue, Unescape, Holds, Contains;
    var seen := SeenValue(raw, needle);
    Found("", seen, Unescape(ReadValue(raw).value.1), needle, Unescape(raw));
  }

  /** The texts and words of a block. */
  function BlockTexts(b: Block): set<string> {
    match b
    case Markdown(text) => {text}
    case Card(title, body, actions) =>
      {title, body} + (set a | a in actions :: a.caption) + (set a | a in actions :: a.href)
    case ListBlock(items) =>
      (set i | i in items :: i.title) + (set i | i in items :: i.detail) + (set i | i in items :: IconName(i.icon))
    case Kv(rows) => (set r | r in rows :: r.caption) + (set r | r in rows :: r.value)
    case Callout(tone, text) => {ToneName(tone), text}
  }

  lemma FieldHolds(fields: map<string, Value>, name: string, needle: string)
    requires name in fields && Holds(fields[name], needle)
    ensures Holds(Object(fields), needle)
  {}

  lemma TextHolds(fields: map<string, Value>, name: string, text: string, needle: string)
    requires Word(Get(fields, name)) == Some(text) && Contains(text, needle)
    ensures Holds(Object(fields), needle)
  {
    hide Contains;
    assert Holds(fields[name], needle);
    FieldHolds(fields, name, needle);
  }

  lemma ListHolds<T>(fields: map<string, Value>, name: string, items: seq<T>, parse: Value -> Option<T>, i: nat,
                     needle: string)
    requires ParseList(Get(fields, name), parse) == Some(items) && i < |items|
    requires Holds(fields[name].items[i], needle)
    ensures Holds(Object(fields), needle)
  {
    hide Contains;
    assert Holds(fields[name], needle);
    FieldHolds(fields, name, needle);
  }

  lemma ActionHolds(href: Policy, v: Value, a: Action, needle: string)
    requires ParseAction(href, v) == Some(a) && (Contains(a.caption, needle) || Contains(a.href, needle))
    ensures Holds(v, needle)
  {
    hide Contains, Holds, ValidText;
    if Contains(a.caption, needle) { TextHolds(v.fields, "label", a.caption, needle); }
    if Contains(a.href, needle) { TextHolds(v.fields, "href", a.href, needle); }
  }

  lemma ItemHolds(v: Value, i: ListItem, needle: string)
    requires ParseListItem(v) == Some(i)
    requires Contains(i.title, needle) || Contains(i.detail, needle) || Contains(IconName(i.icon), needle)
    ensures Holds(v, needle)
  {
    hide Contains, Holds, ValidText;
    if Contains(i.title, needle) { TextHolds(v.fields, "title", i.title, needle); }
    if Contains(i.detail, needle) { TextHolds(v.fields, "detail", i.detail, needle); }
    if Contains(IconName(i.icon), needle) { TextHolds(v.fields, "icon", IconName(i.icon), needle); }
  }

  lemma RowHolds(v: Value, r: KvRow, needle: string)
    requires ParseRow(v) == Some(r) && (Contains(r.caption, needle) || Contains(r.value, needle))
    ensures Holds(v, needle)
  {
    hide Contains, Holds, ValidText;
    if Contains(r.caption, needle) { TextHolds(v.fields, "label", r.caption, needle); }
    if Contains(r.value, needle) { TextHolds(v.fields, "value", r.value, needle); }
  }

  lemma CardHolds(href: Policy, v: Value, b: Block, text: string, needle: string)
    requires b.Card? && v.Object? && ParseCard(href, v.fields) == Some(b) && text in BlockTexts(b)
             && Contains(text, needle)
    ensures Holds(v, needle)
  {
    hide Contains, Holds, ValidText, ParseList, ParseAction;
    if text == b.title {
      TextHolds(v.fields, "title", text, needle);
    } else if text == b.body {
      TextHolds(v.fields, "body", text, needle);
    } else {
      var a :| a in b.actions && (text == a.caption || text == a.href);
      var i :| 0 <= i < |b.actions| && b.actions[i] == a;
      PartHolds(v.fields, "actions", b.actions, x => ParseAction(href, x), i);
      ActionHolds(href, v.fields["actions"].items[i], a, needle);
      ListHolds(v.fields, "actions", b.actions, x => ParseAction(href, x), i, needle);
    }
  }

  lemma PartHolds<T>(fields: map<string, Value>, name: string, items: seq<T>, parse: Value -> Option<T>, i: nat)
    requires ParseList(Get(fields, name), parse) == Some(items) && i < |items|
    ensures name in fields && fields[name].List? && |fields[name].items| == |items|
            && parse(fields[name].items[i]) == Some(items[i])
  {}

  lemma ListBlockHolds(fields: map<string, Value>, items: seq<ListItem>, text: string, needle: string)
    requires ParseList(Get(fields, "items"), ParseListItem) == Some(items)
    requires text in BlockTexts(ListBlock(items)) && Contains(text, needle)
    ensures Holds(Object(fields), needle)
  {
    hide Contains, Holds, ParseList, ParseListItem;
    var x :| x in items && (text == x.title || text == x.detail || text == IconName(x.icon));
    var i :| 0 <= i < |items| && items[i] == x;
    PartHolds(fields, "items", items, ParseListItem, i);
    ItemHolds(fields["items"].items[i], x, needle);
    ListHolds(fields, "items", items, ParseListItem, i, needle);
  }

  lemma RowsHold(fields: map<string, Value>, rows: seq<KvRow>, text: string, needle: string)
    requires ParseList(Get(fields, "rows"), ParseRow) == Some(rows)
    requires text in BlockTexts(Kv(rows)) && Contains(text, needle)
    ensures Holds(Object(fields), needle)
  {
    hide Contains, Holds, ParseList, ParseRow;
    var x :| x in rows && (text == x.caption || text == x.value);
    var i :| 0 <= i < |rows| && rows[i] == x;
    PartHolds(fields, "rows", rows, ParseRow, i);
    RowHolds(fields["rows"].items[i], x, needle);
    ListHolds(fields, "rows", rows, ParseRow, i, needle);
  }

  /** Where the parts of a block were read. */
  lemma BlockParts(href: Policy, v: Value, b: Block)
    requires ParseBlock(href, v) == Some(b)
    ensures v.Object?
    ensures match b
            case Markdown(text) => TextOf(Get(v.fields, "text")) == Some(text)
            case Card(_, _, _) => ParseCard(href, v.fields) == Some(b)
            case ListBlock(items) => ParseList(Get(v.fields, "items"), ParseListItem) == Some(items)
            case Kv(rows) => ParseList(Get(v.fields, "rows"), ParseRow) == Some(rows)
            case Callout(tone, text) =>
              TextOf(Get(v.fields, "text")) == Some(text) && ParseTone(Word(Get(v.fields, "tone"))) == Some(tone)
  {
    hide Word, TextOf, Get, ParseTone, ParseList;
    if ParseCard(href, v.fields).Some? { CardIsCard(href, v.fields); }
    hide ParseCard;
  }

  lemma CardIsCard(href: Policy, fields: map<string, Value>)
    requires ParseCard(href, fields).Some?
    ensures ParseCard(href, fields).value.Card?
  {
    hide ParseList, TextOf, Get;
  }

  lemma ToneWord(word: Option<string>)
    requires ParseTone(word).Some?
    ensures word == Some(ToneName(ParseTone(word).value))
  {}

  lemma TextWord(v: Option<Value>)
    requires TextOf(v).Some?
    ensures Word(v) == TextOf(v)
  {
    hide ValidText;
  }

  lemma BlockHolds(href: Policy, v: Value, b: Block, text: string, needle: string)
    requires ParseBlock(href, v) == Some(b) && text in BlockTexts(b) && Contains(text, needle)
    ensures Holds(v, needle)
  {
    BlockParts(href, v, b);
    hide Contains, Holds, ParseBlock, ParseList, ParseListItem, ParseRow, ParseCard, ParseTone, TextOf, Word, Get,
        ToneName;
    match b {
      case Markdown(_) =>
        TextWord(Get(v.fields, "text"));
        TextHolds(v.fields, "text", text, needle);
      case Card(_, _, _) => CardHolds(href, v, b, text, needle);
      case ListBlock(items) => ListBlockHolds(v.fields, items, text, needle);
      case Kv(rows) => RowsHold(v.fields, rows, text, needle);
      case Callout(tone, body) =>
        if text == body {
          TextWord(Get(v.fields, "text"));
          TextHolds(v.fields, "text", text, needle);
        } else {
          ToneWord(Word(Get(v.fields, "tone")));
          TextHolds(v.fields, "tone", ToneName(tone), needle);
        }
    }
  }

  /** For every raw reply that is an envelope, spaced and escaped as it may be, the scan finds
      whatever a decoded text of its blocks holds. */
  lemma ScanSeesReply(href: Policy, raw: string, b: Block, text: string, needle: string)
    requires Validate(href, raw).Components? && b in Validate(href, raw).blocks && text in BlockTexts(b)
             && Contains(text, needle)
    ensures Contains(Unescape(raw), needle)
  {
    hide Bounded, Parse, Unescape, Contains, Holds, ParseList, ParseBlock, BlockTexts;
    var v := Parse(raw).value;
    var blocks := Validate(href, raw).blocks;
    var i :| 0 <= i < |blocks| && blocks[i] == b;
    PartHolds(v.fields, "blocks", blocks, x => ParseBlock(href, x), i);
    BlockHolds(href, v.fields["blocks"].items[i], b, text, needle);
    ListHolds(v.fields, "blocks", blocks, x => ParseBlock(href, x), i, needle);
    ScanSeesValue(raw, needle);
  }

  /** No reply is let through with a forbidden text in one of its blocks, and the scan of the raw
      reply alone is enough to stop it. */
  lemma ForbiddenIsRefused(href: Policy, raw: string, b: Block, text: string, needle: string)
    requires Validate(href, raw).Components? && b in Validate(href, raw).blocks && text in BlockTexts(b)
             && Contains(text, needle)
    requires needle != ""
    ensures Refused(raw, Some(needle)) && CanonicalReply(href, raw, Some(needle)).None?
  {
    ScanSeesReply(href, raw, b, text, needle);
    hide Validate, Contains, Unescape, Print, EnvelopeDoc, DocContains;
  }
}
