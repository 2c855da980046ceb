/** Which replies are taken for components and which blocks they are, what is refused, and what is kept
    of the others: said of the texts, with every bound a number. */
module ReplyVerdicts {
  import opened Wrappers
  import opened Json
  import opened JsonGrammar
  import opened JsonTrees
  import opened Components
  import L = ComponentLaws
  import H = History

  // ---------------------------------------------------------------- depth

  function Higher(a: nat, b: nat): nat { if a < b then b else a }

  /** How many lists and objects stand inside one another. */
  function Depth(t: Tree): nat {
    match t
    case Named(_) => 0
    case Quoted(_, _) => 0
    case Listed(_, items) => 1 + ItemsDepth(items)
    case Record(_, members) => 1 + MembersDepth(members)
  }

  function ItemsDepth(items: seq<Item>): nat {
    if items == [] then 0 else Higher(Depth(items[0].value), ItemsDepth(items[1..]))
  }

  function MembersDepth(members: seq<Member>): nat {
    if members == [] then 0 else Higher(Depth(members[0].value), MembersDepth(members[1..]))
  }

  /** The scan of a text that comes back to where it was, unless it goes too deep. */
  ghost predicate Scans(s: string, depth: nat, within: bool) {
    ScanFrom(L.Outside(depth), s) == if within then Some(L.Outside(depth)) else None
  }

  lemma ScanBoth(a: string, b: string, depth: nat, first: bool, second: bool)
    requires Scans(a, depth, first) && Scans(b, depth, second)
    ensures Scans(a + b, depth, first && second)
  {
    L.ScanAppend(L.Outside(depth), a, b);
    hide ScanFrom;
  }

  lemma ScanPlain(c: char, depth: nat)
    requires c != '"' && c != '{' && c != '}' && c != '[' && c != ']' && !('0' <= c <= '9')
    ensures Scans([c], depth, true)
  {
    L.ScanOne(L.Outside(depth), c);
  }

  lemma {:induction false} ScanBlanks(s: string, depth: nat)
    requires Blanks(s)
    ensures Scans(s, depth, true)
    decreases |s|
  {
    if s != "" {
      ScanPlain(s[0], depth);
      ScanBlanks(s[1..], depth);
      ScanBoth([s[0]], s[1..], depth, true, true);
      assert [s[0]] + s[1..] == s;
    }
  }

  /** Characters inside a string, none of them a quote or a backslash, change nothing. */
  lemma {:induction false} ScanInner(s: string, depth: nat)
    requires forall i | 0 <= i < |s| :: s[i] != '"' && s[i] != '\\'
    ensures ScanFrom(L.Inside(depth), s) == Some(L.Inside(depth))
    decreases |s|
  {
    if s != "" { ScanInner(s[1..], depth); }
  }

  lemma DigitIsPlain(c: char, d: nat)
    requires DigitFor(c, d)
    ensures c != '"' && c != '\\'
  {
    DigitExactly(c, d);
  }

  lemma QuadIsPlain(s: string, n: nat)
    requires QuadFor(s, n)
    ensures forall i | 0 <= i < 4 :: s[i] != '"' && s[i] != '\\'
  {
    DigitIsPlain(s[0], n / 4096);
    DigitIsPlain(s[1], n / 256 % 16);
    DigitIsPlain(s[2], n / 16 % 16);
    DigitIsPlain(s[3], n % 16);
    hide DigitFor;
  }

  /** A backslash and the character behind it change nothing inside a string. */
  lemma ScanMarked(c: char, depth: nat)
    ensures ScanFrom(L.Inside(depth), ['\\', c]) == Some(L.Inside(depth))
  {
    assert ['\\', c] == ['\\'] + [c];
    L.ScanAppend(L.Inside(depth), ['\\'], [c]);
    L.ScanOne(L.Inside(depth), '\\');
    L.ScanOne(L.Inside(depth).(escaped := true), c);
    hide ScanFrom;
  }

  lemma ScanUnicode(digits: string, n: nat, depth: nat)
    requires QuadFor(digits, n)
    ensures ScanFrom(L.Inside(depth), "\\u" + digits) == Some(L.Inside(depth))
  {
    QuadIsPlain(digits, n);
    ScanInner(digits, depth);
    ScanMarked('u', depth);
    assert "\\u" == ['\\', 'u'];
    L.ScanAppend(L.Inside(depth), "\\u", digits);
    hide ScanFrom, QuadFor;
  }

  lemma ScanChars(s: string, c: char, depth: nat)
    requires CharFor(s, c)
    ensures ScanFrom(L.Inside(depth), s) == Some(L.Inside(depth))
  {
    hide QuadFor, ScanFrom;
    if s == [c] && c != '"' && c != '\\' {
      ScanInner(s, depth);
    } else if |s| == 2 {
      assert s == ['\\', s[1]];
      ScanMarked(s[1], depth);
    } else if |s| == 6 {
      assert s == "\\u" + s[2..];
      ScanUnicode(s[2..], c as nat, depth);
    } else {
      assert s == ("\\u" + s[2..6]) + ("\\u" + s[8..]) by { assert s == s[..2] + s[2..6] + s[6..8] + s[8..]; }
      ScanUnicode(s[2..6], 0xD800 + (c as nat - 0x10000) / 0x400, depth);
      ScanUnicode(s[8..], 0xDC00 + (c as nat - 0x10000) % 0x400, depth);
      L.ScanAppend(L.Inside(depth), "\\u" + s[2..6], "\\u" + s[8..]);
    }
  }

  lemma {:induction false} ScanSpelled(s: string, text: string, depth: nat)
    requires TextFor(s, text)
    ensures ScanFrom(L.Inside(depth), s) == Some(L.Inside(depth))
    decreases |s|
  {
    if text != "" {
      var n := TextFirst(s, text);
      ScanChars(s[..n], text[0], depth);
      ScanSpelled(s[n..], text[1..], depth);
      L.ScanAppend(L.Inside(depth), s[..n], s[n..]);
      assert s[..n] + s[n..] == s;
      hide ScanFrom, TextFor, CharFor;
    }
  }

  lemma ScanQuoted(spelled: string, text: string, depth: nat)
    requires TextFor(spelled, text)
    ensures Scans("\"" + spelled + "\"", depth, true)
  {
    hide ScanFrom, TextFor;
    ScanSpelled(spelled, text, depth);
    L.ScanOne(L.Outside(depth), '"');
    L.ScanOne(L.Inside(depth), '"');
    L.ScanAppend(L.Outside(depth), "\"", spelled);
    L.ScanAppend(L.Outside(depth), "\"" + spelled, "\"");
  }

  /** A bracket goes one deeper, and its partner comes back. */
  lemma ScanBrackets(open: char, inner: string, close: char, depth: nat, within: bool)
    requires (open == '[' && close == ']') || (open == '{' && close == '}')
    requires depth < 8 ==> Scans(inner, depth + 1, within)
    ensures Scans([open] + inner + [close], depth, depth < 8 && within)
  {
    hide ScanFrom;
    L.ScanOne(L.Outside(depth), open);
    L.ScanAppend(L.Outside(depth), [open], inner + [close]);
    assert [open] + inner + [close] == [open] + (inner + [close]);
    if depth < 8 {
      L.ScanAppend(L.Outside(depth + 1), inner, [close]);
      L.ScanOne(L.Outside(depth + 1), close);
    }
  }

  lemma ScanNamed(name: string, depth: nat)
    requires Proper(Named(name))
    ensures Scans(name, depth, true)
  {
    ScanWord(name, depth);
  }

  lemma {:induction false} ScanWord(s: string, depth: nat)
    requires forall i | 0 <= i < |s| :: 'a' <= s[i] <= 'z'
    ensures Scans(s, depth, true)
    decreases |s|
  {
    if s != "" {
      ScanPlain(s[0], depth);
      ScanWord(s[1..], depth);
      ScanBoth([s[0]], s[1..], depth, true, true);
      assert [s[0]] + s[1..] == s;
    }
  }

  /** The scan lets a value through exactly when it nests no deeper than eight. */
  lemma {:induction false} ScanTree(t: Tree, depth: nat)
    requires Proper(t) && depth <= 8
    ensures Scans(Written(t), depth, depth + Depth(t) <= 8)
    decreases t, 1
  {
    hide Scans, TextFor, WrittenItems, WrittenMembers, ItemsDepth, MembersDepth;
    match t {
      case Named(name) => ScanNamed(name, depth);
      case Quoted(spelled, text) => ScanQuoted(spelled, text, depth);
      case Listed(gap, items) =>
        NothingDeep();
        var inner := if items == [] then gap else WrittenItems(items);
        if depth < 8 {
          if items == [] { ScanBlanks(gap, depth + 1); } else { ScanItems(items, depth + 1); }
        }
        ScanBrackets('[', inner, ']', depth, depth + 1 + ItemsDepth(items) <= 8);
      case Record(gap, members) =>
        NothingDeep();
        var inner := if members == [] then gap else WrittenMembers(members);
        if depth < 8 {
          if members == [] { ScanBlanks(gap, depth + 1); } else { ScanMembers(members, depth + 1); }
        }
        ScanBrackets('{', inner, '}', depth, depth + 1 + MembersDepth(members) <= 8);
    }
  }

  lemma NothingDeep()
    ensures ItemsDepth([]) == 0 && MembersDepth([]) == 0
  {}

  lemma {:induction false} ScanItems(items: seq<Item>, depth: nat)
    requires items != [] && depth <= 8 && forall i | 0 <= i < |items| :: ProperItem(items[i])
    ensures Scans(WrittenItems(items), depth, depth + ItemsDepth(items) <= 8)
    decreases items, 2
  {
    hide Scans, Written, Depth, Proper;
    var i, tail := items[0], items[1..];
    var fits := depth + Depth(i.value) <= 8;
    ScanBlanks(i.before, depth);
    ScanTree(i.value, depth);
    ScanBlanks(i.after, depth);
    ScanBoth(i.before, Written(i.value), depth, true, fits);
    var head := i.before + Written(i.value) + i.after;
    ScanBoth(i.before + Written(i.value), i.after, depth, fits, true);
    if |items| == 1 {
      assert tail == [];
      NothingDeep();
    } else {
      assert forall k | 0 <= k < |tail| :: tail[k] == items[k + 1];
      ScanItems(tail, depth);
      ScanPlain(',', depth);
      ScanBoth(head, ",", depth, fits, true);
      ScanBoth(head + ",", WrittenItems(tail), depth, fits, depth + ItemsDepth(tail) <= 8);
    }
  }

  lemma ScanLine(before: string, spelled: string, name: string, colon: string, tail: string, depth: nat, within: bool)
    requires Blanks(before) && TextFor(spelled, name) && Blanks(colon) && Scans(tail, depth, within)
    ensures Scans(Line(before, spelled, colon, tail), depth, within)
  {
    hide Scans, TextFor, Blanks;
    ScanBlanks(before, depth);
    ScanQuoted(spelled, name, depth);
    ScanBlanks(colon, depth);
    ScanPlain(':', depth);
    ScanBoth(before, "\"" + spelled + "\"", depth, true, true);
    ScanBoth(before + ("\"" + spelled + "\""), colon, depth, true, true);
    ScanBoth(before + ("\"" + spelled + "\"") + colon, ":", depth, true, true);
    ScanBoth(before + ("\"" + spelled + "\"") + colon + ":", tail, depth, true, within);
    assert before + ("\"" + spelled + "\"") + colon + ":" + tail ==
           before + "\"" + (spelled + "\"" + (colon + ":" + tail));
  }

  lemma {:induction false} ScanMembers(members: seq<Member>, depth: nat)
    requires members != [] && depth <= 8 && forall i | 0 <= i < |members| :: ProperMember(members[i])
    ensures Scans(WrittenMembers(members), depth, depth + MembersDepth(members) <= 8)
    decreases members, 2
  {
    hide Scans, Written, Depth, Proper, TextFor, Line;
    var m, more := members[0], members[1..];
    var fits := depth + Depth(m.value) <= 8;
    ScanBlanks(m.gap, depth);
    ScanTree(m.value, depth);
    ScanBlanks(m.after, depth);
    ScanBoth(m.gap, Written(m.value), depth, true, fits);
    ScanBoth(m.gap + Written(m.value), m.after, depth, fits, true);
    var head := Line(m.before, m.spelled, m.colon, m.gap + Written(m.value) + m.after);
    ScanLine(m.before, m.spelled, m.name, m.colon, m.gap + Written(m.value) + m.after, depth, fits);
    if |members| == 1 {
      assert more == [];
      NothingDeep();
    } else {
      assert forall k | 0 <= k < |more| :: more[k] == members[k + 1];
      ScanMembers(more, depth);
      ScanPlain(',', depth);
      ScanBoth(head, ",", depth, fits, true);
      ScanBoth(head + ",", WrittenMembers(more), depth, fits, depth + MembersDepth(more) <= 8);
    }
  }

  /** A text that is a value between blanks is let through exactly within 100,000 bytes and depth eight. */
  lemma BoundedExactly(gap: string, t: Tree, after: string)
    requires Blanks(gap) && Proper(t) && Blanks(after)
    ensures var raw := gap + Written(t) + after; Bounded(raw) <==> H.Utf8Bytes(raw) <= 100_000 && Depth(t) <= 8
  {
    ScanBlanks(gap, 0);
    ScanTree(t, 0);
    ScanBlanks(after, 0);
    ScanBoth(gap, Written(t), 0, true, Depth(t) <= 8);
    ScanBoth(gap + Written(t), after, 0, Depth(t) <= 8, true);
    hide ScanFrom, Proper, Depth, Written;
  }

  // ---------------------------------------------------------------- blocks

  ghost predicate Fits(text: string) { H.Utf8Bytes(text) <= 4_000 && forall i | 0 <= i < |text| :: text[i] != '\0' }

  ghost predicate ActionIs(href: Policy, v: Value, a: Action) {
    && v == Object(map["label" := Text(a.caption), "href" := Text(a.href)])
    && Fits(a.caption) && Fits(a.href) && href(a.href)
  }

  function IconWord(i: Icon): string {
    if i == Envelope then "envelope" else if i == Icon.Calendar then "calendar" else if i == Globe then "globe"
        else "sparkle"
  }

  function ToneWord(t: Tone): string { if t == Info then "info" else if t == Warn then "warn" else "success" }

  ghost predicate ItemIs(v: Value, i: ListItem) {
    && v == Object(map["title" := Text(i.title), "detail" := Text(i.detail), "icon" := Text(IconWord(i.icon))])
    && Fits(i.title) && Fits(i.detail)
  }

  ghost predicate RowIs(v: Value, r: KvRow) {
    v == Object(map["label" := Text(r.caption), "value" := Text(r.value)]) && Fits(r.caption) && Fits(r.value)
  }

  // At most forty values, each of them what stands at its place.

  ghost predicate ActionsAre(href: Policy, v: Value, xs: seq<Action>) {
    v.List? && |v.items| == |xs| <= 40 && forall i | 0 <= i < |xs| :: ActionIs(href, v.items[i], xs[i])
  }

  ghost predicate ItemsAre(v: Value, xs: seq<ListItem>) {
    v.List? && |v.items| == |xs| <= 40 && forall i | 0 <= i < |xs| :: ItemIs(v.items[i], xs[i])
  }

  ghost predicate RowsAre(v: Value, xs: seq<KvRow>) {
    v.List? && |v.items| == |xs| <= 40 && forall i | 0 <= i < |xs| :: RowIs(v.items[i], xs[i])
  }

  /** A value has exactly the fields of its block; a card without actions may leave the field out. */
  ghost predicate BlockIs(href: Policy, v: Value, b: Block) {
    match b
    case Markdown(text) => v == Object(map["type" := Text("markdown"), "text" := Text(text)]) && Fits(text)
    case Card(title, body, actions) =>
      && Fits(title) && Fits(body)
      && ((actions == [] && v == Object(map["type" := Text("card"), "title" := Text(title), "body" := Text(body)]))
          || exists list :: ActionsAre(href, list, actions)
               && v == Object(map["type" := Text("card"), "title" := Text(title), "body" := Text(body),
                                  "actions" := list]))
    case ListBlock(items) =>
      exists list :: ItemsAre(list, items) && v == Object(map["type" := Text("list"), "items" := list])
    case Kv(rows) => exists list :: RowsAre(list, rows) && v == Object(map["type" := Text("kv"), "rows" := list])
    case Callout(tone, text) =>
      v == Object(map["type" := Text("callout"), "tone" := Text(ToneWord(tone)), "text" := Text(text)]) && Fits(text)
  }

  ghost predicate BlocksAre(href: Policy, v: Value, xs: seq<Block>) {
    v.List? && |v.items| == |xs| <= 40 && forall i | 0 <= i < |xs| :: BlockIs(href, v.items[i], xs[i])
  }

  ghost predicate EnvelopeIs(href: Policy, v: Value, blocks: seq<Block>) {
    exists list :: BlocksAre(href, list, blocks) && v == Object(map["kind" := Text("components"), "blocks" := list])
  }

  lemma {:induction false} SubsetSize(a: set<string>, b: set<string>)
    requires a <= b
    ensures |a| <= |b| && (|a| == |b| ==> a == b)
    decreases |b|
  {
    if x :| x in b {
      SubsetSize(a - {x}, b - {x});
      assert x in a ==> a == (a - {x}) + {x};
      assert x !in a ==> a - {x} == a;
      assert b == (b - {x}) + {x};
    }
  }

  /** A map of as many fields as are named has no others. */
  lemma OnlyFields(fields: map<string, Value>, names: set<string>)
    requires names <= fields.Keys && |fields| == |names|
    ensures fields.Keys == names
  {
    SubsetSize(names, fields.Keys);
    assert |fields.Keys| == |fields|;
  }

  lemma TwoExactly(fields: map<string, Value>, a: string, b: string, x: Value, y: Value)
    requires a != b
    ensures fields == map[a := x, b := y] <==> |fields| == 2 && Get(fields, a) == Some(x) && Get(fields, b) == Some(y)
  {
    assert |{a, b}| == 2;
    if |fields| == 2 && a in fields && b in fields { OnlyFields(fields, {a, b}); }
    if fields == map[a := x, b := y] { assert fields.Keys == {a, b} && |fields| == |fields.Keys|; }
  }

  lemma ThreeExactly(fields: map<string, Value>, a: string, b: string, c: string, x: Value, y: Value, z: Value)
    requires a != b && b != c && a != c
    ensures fields == map[a := x, b := y, c := z] <==>
            |fields| == 3 && Get(fields, a) == Some(x) && Get(fields, b) == Some(y) && Get(fields, c) == Some(z)
  {
    assert |{a, b, c}| == 3;
    if |fields| == 3 && a in fields && b in fields && c in fields { OnlyFields(fields, {a, b, c}); }
    if fields == map[a := x, b := y, c := z] { assert fields.Keys == {a, b, c} && |fields| == |fields.Keys|; }
  }

  lemma FourExactly(fields: map<string, Value>, a: string, b: string, c: string, d: string, x: Value, y: Value,
                    z: Value, w: Value)
    requires a != b && b != c && a != c && a != d && b != d && c != d
    ensures fields == map[a := x, b := y, c := z, d := w] <==>
            && |fields| == 4 && Get(fields, a) == Some(x) && Get(fields, b) == Some(y) && Get(fields, c) == Some(z)
            && Get(fields, d) == Some(w)
  {
    var names := {a, b, c, d};
    var given := map[a := x, b := y, c := z, d := w];
    assert |names| == 4;
    assert given.Keys == names && |given| == |given.Keys|;
    if |fields| == 4 && a in fields && b in fields && c in fields && d in fields {
      OnlyFields(fields, names);
      SameMap(fields, given);
    }
  }

  lemma SameMap(a: map<string, Value>, b: map<string, Value>)
    requires a.Keys == b.Keys
    ensures (forall k | k in a :: a[k] == b[k]) ==> a == b
  {}

  lemma FieldTextExactly(v: Option<Value>, text: string)
    ensures TextOf(v) == Some(text) <==> v == Some(Text(text)) && Fits(text)
    ensures Word(v) == Some(text) <==> v == Some(Text(text))
  {
    hide H.Utf8Bytes;
  }

  lemma ListExactly<T>(v: Option<Value>, parse: Value -> Option<T>, xs: seq<T>)
    ensures ParseList(v, parse) == Some(xs) <==>
            && v.Some? && v.value.List? && |v.value.items| == |xs| <= 40
            && forall i | 0 <= i < |xs| :: parse(v.value.items[i]) == Some(xs[i])
  {
    if v.Some? && v.value.List? && |v.value.items| == |xs| <= 40
       && forall i | 0 <= i < |xs| :: parse(v.value.items[i]) == Some(xs[i])
    {
      var items := v.value.items;
      assert ParseAll(items, parse).Some?;
      assert ParseAll(items, parse).value == xs;
    }
  }

  lemma ActionExactly(href: Policy, v: Value, a: Action)
    ensures ParseAction(href, v) == Some(a) <==> ActionIs(href, v, a)
  {
    if v.Object? {
      TwoExactly(v.fields, "label", "href", Text(a.caption), Text(a.href));
      FieldTextExactly(Get(v.fields, "label"), a.caption);
      FieldTextExactly(Get(v.fields, "href"), a.href);
    }
    hide TextOf, Fits, Get;
  }

  lemma RowExactly(v: Value, r: KvRow)
    ensures ParseRow(v) == Some(r) <==> RowIs(v, r)
  {
    if v.Object? {
      TwoExactly(v.fields, "label", "value", Text(r.caption), Text(r.value));
      FieldTextExactly(Get(v.fields, "label"), r.caption);
      FieldTextExactly(Get(v.fields, "value"), r.value);
    }
    hide TextOf, Fits, Get;
  }

  lemma IconExactly(word: Option<string>, i: Icon)
    ensures ParseIcon(word) == Some(i) <==> word == Some(IconWord(i))
  {}

  lemma ToneExactly(word: Option<string>, t: Tone)
    ensures ParseTone(word) == Some(t) <==> word == Some(ToneWord(t))
  {}

  lemma ItemExactly(v: Value, i: ListItem)
    ensures ParseListItem(v) == Some(i) <==> ItemIs(v, i)
  {
    if v.Object? {
      ThreeExactly(v.fields, "title", "detail", "icon", Text(i.title), Text(i.detail), Text(IconWord(i.icon)));
      FieldTextExactly(Get(v.fields, "title"), i.title);
      FieldTextExactly(Get(v.fields, "detail"), i.detail);
      IconExactly(Word(Get(v.fields, "icon")), i.icon);
      FieldTextExactly(Get(v.fields, "icon"), IconWord(i.icon));
    }
    hide TextOf, Fits, Get, ParseIcon, Word, IconWord;
  }

  lemma ActionsExactly(href: Policy, v: Option<Value>, xs: seq<Action>)
    ensures ParseList(v, w => ParseAction(href, w)) == Some(xs) <==> v.Some? && ActionsAre(href, v.value, xs)
  {
    var parse := (w: Value) => ParseAction(href, w);
    ListExactly(v, parse, xs);
    forall w, a ensures parse(w) == Some(a) <==> ActionIs(href, w, a) { ActionExactly(href, w, a); }
    hide ParseList, ParseAction, ActionIs;
  }

  lemma ItemsExactly(v: Option<Value>, xs: seq<ListItem>)
    ensures ParseList(v, ParseListItem) == Some(xs) <==> v.Some? && ItemsAre(v.value, xs)
  {
    ListExactly(v, ParseListItem, xs);
    forall w, i ensures ParseListItem(w) == Some(i) <==> ItemIs(w, i) { ItemExactly(w, i); }
    hide ParseList, ParseListItem, ItemIs;
  }

  lemma RowsExactly(v: Option<Value>, xs: seq<KvRow>)
    ensures ParseList(v, ParseRow) == Some(xs) <==> v.Some? && RowsAre(v.value, xs)
  {
    ListExactly(v, ParseRow, xs);
    forall w, r ensures ParseRow(w) == Some(r) <==> RowIs(w, r) { RowExactly(w, r); }
    hide ParseList, ParseRow, RowIs;
  }

  lemma CardExactly(href: Policy, v: Value, b: Block)
    requires b.Card? && v.Object? && Word(Get(v.fields, "type")) == Some("card")
    ensures ParseCard(href, v.fields) == Some(b) <==> BlockIs(href, v, b)
  {
    var f := v.fields;
    FieldTextExactly(Get(f, "title"), b.title);
    FieldTextExactly(Get(f, "body"), b.body);
    ActionsExactly(href, Get(f, "actions"), b.actions);
    ThreeExactly(f, "type", "title", "body", Text("card"), Text(b.title), Text(b.body));
    if "actions" in f {
      FourExactly(f, "type", "title", "body", "actions", Text("card"), Text(b.title), Text(b.body), f["actions"]);
      CardWith(href, v, b);
    } else {
      CardWithout(href, v, b);
    }
    hide TextOf, Fits, ParseList, ActionsAre, ParseAction;
  }

  lemma CardWith(href: Policy, v: Value, b: Block)
    requires b.Card? && v.Object? && "actions" in v.fields
    ensures BlockIs(href, v, b) <==>
            && Fits(b.title) && Fits(b.body) && ActionsAre(href, v.fields["actions"], b.actions)
            && v.fields == map["type" := Text("card"), "title" := Text(b.title), "body" := Text(b.body),
                               "actions" := v.fields["actions"]]
  {
    hide Fits, ActionsAre;
  }

  lemma CardWithout(href: Policy, v: Value, b: Block)
    requires b.Card? && v.Object? && "actions" !in v.fields
    ensures BlockIs(href, v, b) <==>
            && Fits(b.title) && Fits(b.body) && b.actions == []
            && v.fields == map["type" := Text("card"), "title" := Text(b.title), "body" := Text(b.body)]
  {
    hide Fits, ActionsAre;
  }

  lemma MarkdownExactly(href: Policy, v: Value, text: string)
    requires v.Object?
    ensures BlockIs(href, v, Markdown(text)) <==>
            && |v.fields| == 2 && Get(v.fields, "type") == Some(Text("markdown"))
               && TextOf(Get(v.fields, "text")) == Some(text)
  {
    TwoExactly(v.fields, "type", "text", Text("markdown"), Text(text));
    FieldTextExactly(Get(v.fields, "text"), text);
    hide TextOf, Fits, Get;
  }

  lemma CalloutExactly(href: Policy, v: Value, tone: Tone, text: string)
    requires v.Object?
    ensures BlockIs(href, v, Callout(tone, text)) <==>
            && |v.fields| == 3 && Get(v.fields, "type") == Some(Text("callout"))
            && ParseTone(Word(Get(v.fields, "tone"))) == Some(tone) && TextOf(Get(v.fields, "text")) == Some(text)
  {
    ThreeExactly(v.fields, "type", "tone", "text", Text("callout"), Text(ToneWord(tone)), Text(text));
    FieldTextExactly(Get(v.fields, "text"), text);
    FieldTextExactly(Get(v.fields, "tone"), ToneWord(tone));
    ToneExactly(Word(Get(v.fields, "tone")), tone);
    hide TextOf, Fits, Get, Word, ParseTone, ToneWord;
  }

  lemma ItemsBlockExactly(href: Policy, v: Value, items: seq<ListItem>)
    requires v.Object?
    ensures BlockIs(href, v, ListBlock(items)) <==>
            && |v.fields| == 2 && Get(v.fields, "type") == Some(Text("list"))
            && ParseList(Get(v.fields, "items"), ParseListItem) == Some(items)
  {
    ItemsExactly(Get(v.fields, "items"), items);
    forall list { TwoExactly(v.fields, "type", "items", Text("list"), list); }
    hide Get, ParseList, ItemsAre;
  }

  lemma RowsBlockExactly(href: Policy, v: Value, rows: seq<KvRow>)
    requires v.Object?
    ensures BlockIs(href, v, Kv(rows)) <==>
            && |v.fields| == 2 && Get(v.fields, "type") == Some(Text("kv"))
            && ParseList(Get(v.fields, "rows"), ParseRow) == Some(rows)
  {
    RowsExactly(Get(v.fields, "rows"), rows);
    forall list { TwoExactly(v.fields, "type", "rows", Text("kv"), list); }
    hide Get, ParseList, RowsAre;
  }

  lemma TypeIs(href: Policy, v: Value, b: Block)
    requires BlockIs(href, v, b)
    ensures v.Object? && "type" in v.fields
    ensures v.fields["type"] ==
            Text(match b case Markdown(_) => "markdown" case Card(_, _, _) => "card" case ListBlock(_) => "list"
                                     case Kv(_) => "kv" case Callout(_, _) => "callout")
  {
    hide Fits, ActionsAre, ItemsAre, RowsAre;
  }

  /** A value is read as a block exactly when it is that block and nothing besides. */
  lemma BlockExactly(href: Policy, v: Value, b: Block)
    ensures ParseBlock(href, v) == Some(b) <==> BlockIs(href, v, b)
  {
    if BlockIs(href, v, b) { TypeIs(href, v, b); }
    if v.Object? {
      var kind := Get(v.fields, "type");
      FieldTextExactly(kind, "card");
      FieldTextExactly(kind, "markdown");
      FieldTextExactly(kind, "list");
      FieldTextExactly(kind, "kv");
      FieldTextExactly(kind, "callout");
      match b {
        case Markdown(text) => MarkdownExactly(href, v, text);
        case Card(_, _, _) => if Word(kind) == Some("card") { CardExactly(href, v, b); }
        case ListBlock(items) => ItemsBlockExactly(href, v, items);
        case Kv(rows) => RowsBlockExactly(href, v, rows);
        case Callout(tone, text) => CalloutExactly(href, v, tone, text);
      }
      CardIsCard(href, v.fields);
    }
    hide TextOf, ParseList, ParseTone, Word, BlockIs, ParseCard;
  }

  lemma CardIsCard(href: Policy, fields: map<string, Value>)
    ensures ParseCard(href, fields).Some? ==> ParseCard(href, fields).value.Card?
  {
    hide TextOf, ParseList;
  }

  lemma EnvelopeExactly(href: Policy, v: Value, blocks: seq<Block>)
    ensures ParseValue(href, v) == Some(blocks) <==> EnvelopeIs(href, v, blocks)
  {
    if v.Object? {
      var parse := (w: Value) => ParseBlock(href, w);
      var list := Get(v.fields, "blocks");
      ListExactly(list, parse, blocks);
      forall w, b ensures parse(w) == Some(b) <==> BlockIs(href, w, b) { BlockExactly(href, w, b); }
      FieldTextExactly(Get(v.fields, "kind"), "components");
      forall l { TwoExactly(v.fields, "kind", "blocks", Text("components"), l); }
      BlocksFrom(href, v, blocks);
    }
    hide ParseBlock, ParseList, BlockIs, Word, Get, EnvelopeIs;
  }

  lemma BlocksFrom(href: Policy, v: Value, blocks: seq<Block>)
    requires v.Object?
    ensures EnvelopeIs(href, v, blocks) <==>
            && Get(v.fields, "blocks").Some? && BlocksAre(href, Get(v.fields, "blocks").value, blocks)
            && v.fields == map["kind" := Text("components"), "blocks" := Get(v.fields, "blocks").value]
  {
    hide BlocksAre;
  }

  // ---------------------------------------------------------------- replies

  /** A reply within the bounds whose text is an envelope of exactly these blocks. */
  ghost predicate TakenFor(href: Policy, raw: string, blocks: seq<Block>) {
    && H.Utf8Bytes(raw) <= 100_000
    && exists gap, t, after ::
       Blanks(gap) && Proper(t) && Blanks(after) && raw == gap + Written(t) + after && Depth(t) <= 8
                               && EnvelopeIs(href, Means(t), blocks)
  }

  /** Validation takes a reply for components exactly when its text is an envelope of them, within the
      bounds; the blocks are those of the text, and everything else falls back. */
  lemma ValidateExactly(href: Policy, raw: string, blocks: seq<Block>)
    ensures Validate(href, raw) == Components(blocks) <==> TakenFor(href, raw, blocks)
    ensures Validate(href, raw) == Fallback <==> forall other :: !TakenFor(href, raw, other)
  {
    forall other ensures Validate(href, raw) == Components(other) <==> TakenFor(href, raw, other) {
      TakenExactly(href, raw, other);
    }
    hide Validate, TakenFor;
  }

  lemma TakenExactly(href: Policy, raw: string, blocks: seq<Block>)
    ensures Validate(href, raw) == Components(blocks) <==> TakenFor(href, raw, blocks)
  {
    hide Parse, ParseValue, EnvelopeIs, Proper, Written, Means, Depth, Bounded, Blanks, H.Utf8Bytes;
    if Validate(href, raw) == Components(blocks) {
      var v := Parse(raw).value;
      ParseExactly(raw, v);
      EnvelopeExactly(href, v, blocks);
      var gap, t, after :| Blanks(gap) && Proper(t) && Blanks(after) && raw == gap + Written(t) + after
          && Means(t) == v;
      BoundedExactly(gap, t, after);
    }
    if TakenFor(href, raw, blocks) {
      var gap, t, after :| Blanks(gap) && Proper(t) && Blanks(after) && raw == gap + Written(t) + after && Depth(t) <= 8
                           && EnvelopeIs(href, Means(t), blocks);
      ParseExactly(raw, Means(t));
      EnvelopeExactly(href, Means(t), blocks);
      BoundedExactly(gap, t, after);
    }
  }
}
