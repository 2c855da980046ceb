/** Canonicalization keeps the meaning of a reply and settles in one pass. */
module ComponentLaws {
  import opened Wrappers
  import opened Json
  import opened JsonLaws
  import opened Components
  import H = History

  // ---------------------------------------------------------------- what validation guarantees

  predicate ValidAction(href: Policy, a: Action) { ValidText(a.caption) && ValidText(a.href) && href(a.href) }

  predicate ValidItem(i: ListItem) { ValidText(i.title) && ValidText(i.detail) }

  predicate ValidRow(r: KvRow) { ValidText(r.caption) && ValidText(r.value) }

  predicate ValidBlock(href: Policy, b: Block) {
    match b
    case Markdown(text) => ValidText(text)
    case Card(title, body, actions) =>
      ValidText(title) && ValidText(body) && |actions| <= MAX_BLOCKS && forall a | a in actions :: ValidAction(href, a)
    case ListBlock(items) => |items| <= MAX_BLOCKS && forall i | i in items :: ValidItem(i)
    case Kv(rows) => |rows| <= MAX_BLOCKS && forall r | r in rows :: ValidRow(r)
    case Callout(_, text) => ValidText(text)
  }

  ghost predicate ValidBlocks(href: Policy, blocks: seq<Block>) {
    |blocks| <= MAX_BLOCKS && forall b | b in blocks :: ValidBlock(href, b)
  }

  lemma ParsedBlockIsValid(href: Policy, v: Value)
    requires ParseBlock(href, v).Some?
    ensures ValidBlock(href, ParseBlock(href, v).value)
  {
    hide ValidText, Word, ParseTone, ParseIcon;
  }

  lemma ParsedIsValid(href: Policy, v: Value)
    requires ParseValue(href, v).Some?
    ensures ValidBlocks(href, ParseValue(href, v).value)
  {
    hide ParseBlock, ValidBlock, Word;
    var blocks := ParseValue(href, v).value;
    var items := Get(v.fields, "blocks").value.items;
    forall b | b in blocks ensures ValidBlock(href, b) {
      var i :| 0 <= i < |blocks| && blocks[i] == b;
      assert ParseBlock(href, items[i]) == Some(b);
      ParsedBlockIsValid(href, items[i]);
    }
  }

  // ---------------------------------------------------------------- reading back a block

  /** A list of documents read one by one. */
  lemma {:induction false} ReadDocs<T>(items: seq<T>, doc: T -> Doc, parse: Value -> Option<T>)
    requires forall x | x in items :: parse(Denote(doc(x))) == Some(x)
    ensures ParseAll(DenoteItems(DocsOf(items, doc)), parse) == Some(items)
    decreases |items|
  {
    if items != [] {
      ReadDocs(items[1..], doc, parse);
      assert DocsOf(items, doc)[1..] == DocsOf(items[1..], doc);
      assert DenoteItems(DocsOf(items, doc)) == [Denote(doc(items[0]))] + DenoteItems(DocsOf(items[1..], doc));
      assert [items[0]] + items[1..] == items;
    }
  }

  lemma ReadList<T>(items: seq<T>, doc: T -> Doc, parse: Value -> Option<T>)
    requires |items| <= MAX_BLOCKS && forall x | x in items :: parse(Denote(doc(x))) == Some(x)
    ensures ParseList(Some(Denote(Arr(DocsOf(items, doc)))), parse) == Some(items)
  {
    ReadDocs(items, doc, parse);
  }

  lemma {:induction false} DenoteAt(fields: seq<Field>, k: nat)
    requires k < |fields|
    ensures DenoteFields(fields)[k] == (fields[k].name, Denote(fields[k].value))
    decreases |fields|
  {
    if k > 0 { DenoteAt(fields[1..], k - 1); }
  }

  lemma CollectTwo(p: (string, Value), q: (string, Value))
    ensures Collect([p, q]) == map[p.0 := p.1][q.0 := q.1]
  {
    assert [p, q][..1] == [p] && [p][..0] == [];
    assert Collect([p]) == map[p.0 := p.1];
  }

  lemma CollectThree(p: (string, Value), q: (string, Value), r: (string, Value))
    ensures Collect([p, q, r]) == map[p.0 := p.1][q.0 := q.1][r.0 := r.1]
  {
    CollectTwo(p, q);
    assert [p, q, r][..2] == [p, q];
  }

  lemma CollectFour(p: (string, Value), q: (string, Value), r: (string, Value), t: (string, Value))
    ensures Collect([p, q, r, t]) == map[p.0 := p.1][q.0 := q.1][r.0 := r.1][t.0 := t.1]
  {
    CollectThree(p, q, r);
    assert [p, q, r, t][..3] == [p, q, r];
  }

  lemma DenoteTwo(a: Field, b: Field)
    ensures Denote(Obj([a, b])) == Object(map[a.name := Denote(a.value)][b.name := Denote(b.value)])
  {
    hide DenoteFields, Collect;
    DenoteAt([a, b], 0);
    DenoteAt([a, b], 1);
    assert DenoteFields([a, b]) == [(a.name, Denote(a.value)), (b.name, Denote(b.value))];
    CollectTwo((a.name, Denote(a.value)), (b.name, Denote(b.value)));
  }

  lemma DenoteThree(a: Field, b: Field, c: Field)
    ensures Denote(Obj([a, b, c])) ==
            Object(map[a.name := Denote(a.value)][b.name := Denote(b.value)][c.name := Denote(c.value)])
  {
    hide DenoteFields, Collect;
    DenoteAt([a, b, c], 0);
    DenoteAt([a, b, c], 1);
    DenoteAt([a, b, c], 2);
    assert DenoteFields([a, b, c]) == [(a.name, Denote(a.value)), (b.name, Denote(b.value)), (c.name, Denote(c.value))];
    CollectThree((a.name, Denote(a.value)), (b.name, Denote(b.value)), (c.name, Denote(c.value)));
  }

  lemma DenoteFour(a: Field, b: Field, c: Field, d: Field)
    ensures Denote(Obj([a, b, c, d])) ==
            Object(map[a.name := Denote(a.value)][b.name := Denote(b.value)]
                      [c.name := Denote(c.value)][d.name := Denote(d.value)])
  {
    hide DenoteFields, Collect;
    DenoteAt([a, b, c, d], 0);
    DenoteAt([a, b, c, d], 1);
    DenoteAt([a, b, c, d], 2);
    DenoteAt([a, b, c, d], 3);
    assert DenoteFields([a, b, c, d]) ==
           [(a.name, Denote(a.value)), (b.name, Denote(b.value)), (c.name, Denote(c.value)), (d.name, Denote(d.value))];
    CollectFour((a.name, Denote(a.value)), (b.name, Denote(b.value)), (c.name, Denote(c.value)),
                (d.name, Denote(d.value)));
  }

  lemma ReadAction(href: Policy, a: Action)
    requires ValidAction(href, a)
    ensures ParseAction(href, Denote(ActionDoc(a))) == Some(a)
  {
    DenoteTwo(Field("href", Str(a.href)), Field("label", Str(a.caption)));
    hide ValidText, DenoteFields, Collect;
  }

  lemma ReadItem(i: ListItem)
    requires ValidItem(i)
    ensures ParseListItem(Denote(ItemDoc(i))) == Some(i)
  {
    DenoteThree(Field("detail", Str(i.detail)), Field("icon", Str(IconName(i.icon))), Field("title", Str(i.title)));
    hide ValidText, DenoteFields, Collect;
  }

  lemma ReadRow(r: KvRow)
    requires ValidRow(r)
    ensures ParseRow(Denote(RowDoc(r))) == Some(r)
  {
    DenoteTwo(Field("label", Str(r.caption)), Field("value", Str(r.value)));
    hide ValidText, DenoteFields, Collect;
  }

  lemma ReadCard(href: Policy, b: Block)
    requires b.Card? && ValidBlock(href, b)
    ensures ParseBlock(href, Denote(BlockDoc(b))) == Some(b)
  {
    DenoteFour(Field("actions", Arr(DocsOf(b.actions, ActionDoc))), Field("body", Str(b.body)),
               Field("title", Str(b.title)),
               Field("type", Str("card")));
    hide ValidText, DenoteFields, Collect, ParseList, DenoteItems;
    forall a | a in b.actions ensures ParseAction(href, Denote(ActionDoc(a))) == Some(a) { ReadAction(href, a); }
    ReadList(b.actions, ActionDoc, v => ParseAction(href, v));
  }

  lemma ReadListBlock(href: Policy, items: seq<ListItem>)
    requires |items| <= MAX_BLOCKS && forall i | i in items :: ValidItem(i)
    ensures ParseBlock(href, Denote(BlockDoc(ListBlock(items)))) == Some(ListBlock(items))
  {
    hide ValidItem, DenoteFields, Collect, ParseList, DenoteItems, ParseCard, ParseListItem, TextOf;
    DenoteTwo(Field("items", Arr(DocsOf(items, ItemDoc))), Field("type", Str("list")));
    forall i | i in items ensures ParseListItem(Denote(ItemDoc(i))) == Some(i) { ReadItem(i); }
    ReadList(items, ItemDoc, ParseListItem);
  }

  lemma ReadRows(href: Policy, rows: seq<KvRow>)
    requires |rows| <= MAX_BLOCKS && forall r | r in rows :: ValidRow(r)
    ensures ParseBlock(href, Denote(BlockDoc(Kv(rows)))) == Some(Kv(rows))
  {
    hide ValidRow, DenoteFields, Collect, ParseList, DenoteItems, ParseCard, ParseRow, TextOf;
    DenoteTwo(Field("rows", Arr(DocsOf(rows, RowDoc))), Field("type", Str("kv")));
    forall r | r in rows ensures ParseRow(Denote(RowDoc(r))) == Some(r) { ReadRow(r); }
    ReadList(rows, RowDoc, ParseRow);
  }

  lemma ReadCallout(href: Policy, tone: Tone, text: string)
    requires ValidText(text)
    ensures ParseBlock(href, Denote(BlockDoc(Callout(tone, text)))) == Some(Callout(tone, text))
  {
    hide ValidText, DenoteFields, Collect, ParseList, DenoteItems, ParseCard;
    DenoteThree(Field("text", Str(text)), Field("tone", Str(ToneName(tone))), Field("type", Str("callout")));
  }

  lemma ReadMarkdown(href: Policy, text: string)
    requires ValidText(text)
    ensures ParseBlock(href, Denote(BlockDoc(Markdown(text)))) == Some(Markdown(text))
  {
    hide ValidText, DenoteFields, Collect, ParseList, DenoteItems, ParseCard;
    DenoteTwo(Field("text", Str(text)), Field("type", Str("markdown")));
  }

  lemma ReadBlock(href: Policy, b: Block)
    requires ValidBlock(href, b)
    ensures ParseBlock(href, Denote(BlockDoc(b))) == Some(b)
  {
    match b {
      case Markdown(text) => ReadMarkdown(href, text);
      case Card(_, _, _) => ReadCard(href, b);
      case ListBlock(items) => ReadListBlock(href, items);
      case Kv(rows) => ReadRows(href, rows);
      case Callout(tone, text) => ReadCallout(href, tone, text);
    }
    hide ParseBlock, BlockDoc, Denote;
  }

  lemma ReadEnvelope(href: Policy, blocks: seq<Block>)
    requires ValidBlocks(href, blocks)
    ensures ParseValue(href, Denote(EnvelopeDoc(blocks))) == Some(blocks)
  {
    DenoteTwo(Field("blocks", Arr(DocsOf(blocks, BlockDoc))), Field("kind", Str("components")));
    hide ParseList, DenoteItems, DenoteFields, Collect, ParseBlock, ValidBlock, BlockDoc;
    forall b | b in blocks ensures ParseBlock(href, Denote(BlockDoc(b))) == Some(b) { ReadBlock(href, b); }
    ReadList(blocks, BlockDoc, v => ParseBlock(href, v));
  }

  // ---------------------------------------------------------------- the printed form is within bounds

  lemma {:induction false} ScanAppend(st: Scan, a: string, b: string)
    ensures ScanFrom(st, a + b) == (match ScanFrom(st, a) case None => None case Some(mid) => ScanFrom(mid, b))
    decreases |a|
  {
    if a == "" {
      assert a + b == b;
    } else {
      assert (a + b)[0] == a[0] && (a + b)[1..] == a[1..] + b;
      if ScanChar(st, a[0]).Some? { ScanAppend(ScanChar(st, a[0]).value, a[1..], b); }
    }
  }

  function Inside(depth: nat): Scan { Scan(depth, true, false) }

  function Outside(depth: nat): Scan { Scan(depth, false, false) }

  lemma ScanOne(st: Scan, c: char)
    ensures ScanFrom(st, [c]) == ScanChar(st, c)
  {
    assert [c][1..] == "";
  }

  lemma ScanEscape(c: char, depth: nat)
    ensures ScanFrom(Inside(depth), EscapeChar(c)) == Some(Inside(depth))
  {
    var e := EscapeChar(c);
    if |e| == 1 {
      PlainOr(c);
      ScanOne(Inside(depth), c);
    } else if |e| == 2 {
      assert e == "\\" + [e[1]];
      ScanAppend(Inside(depth), "\\", [e[1]]);
      ScanOne(Inside(depth), '\\');
      ScanOne(Inside(depth).(escaped := true), e[1]);
    } else {
      assert e == "\\u00" + [e[4], e[5]];
      assert e[4] != '\\' && e[4] != '"' && e[5] != '\\' && e[5] != '"';
      assert "\\u00" == "\\" + ("u" + ("0" + "0")) && [e[4], e[5]] == [e[4]] + [e[5]];
      ScanAppend(Inside(depth), "\\u00", [e[4], e[5]]);
      ScanAppend(Inside(depth), "\\", "u" + ("0" + "0"));
      ScanOne(Inside(depth), '\\');
      ScanAppend(Inside(depth).(escaped := true), "u", "0" + "0");
      ScanOne(Inside(depth).(escaped := true), 'u');
      ScanAppend(Inside(depth), "0", "0");
      ScanOne(Inside(depth), '0');
      ScanAppend(Inside(depth), [e[4]], [e[5]]);
      ScanOne(Inside(depth), e[4]);
      ScanOne(Inside(depth), e[5]);
    }
  }

  lemma PlainOr(c: char)
    requires |EscapeChar(c)| == 1
    ensures EscapeChar(c) == [c] && c != '"' && c != '\\'
  {}

  lemma {:induction false} ScanText(s: string, depth: nat)
    ensures ScanFrom(Inside(depth), EscapeText(s)) == Some(Inside(depth))
    decreases |s|
  {
    if s != "" {
      ScanEscape(s[0], depth);
      ScanText(s[1..], depth);
      ScanAppend(Inside(depth), EscapeChar(s[0]), EscapeText(s[1..]));
    }
  }

  lemma ScanQuote(s: string, depth: nat)
    ensures ScanFrom(Outside(depth), Quote(s)) == Some(Outside(depth))
  {
    hide ScanFrom, EscapeText;
    ScanText(s, depth);
    ScanOne(Outside(depth), '"');
    ScanOne(Inside(depth), '"');
    ScanAppend(Outside(depth), "\"", EscapeText(s));
    ScanAppend(Outside(depth), "\"" + EscapeText(s), "\"");
  }

  /** How deep a document nests. */
  function Height(d: Doc): nat {
    match d
    case Str(_) => 0
    case Arr(items) => 1 + ItemsHeight(items)
    case Obj(fields) => 1 + FieldsHeight(fields)
  }

  function Larger(a: nat, b: nat): nat { if a < b then b else a }

  function ItemsHeight(items: seq<Doc>): nat {
    if items == [] then 0 else Larger(Height(items[0]), ItemsHeight(items[1..]))
  }

  function FieldsHeight(fields: seq<Field>): nat {
    if fields == [] then 0 else Larger(Height(fields[0].value), FieldsHeight(fields[1..]))
  }

  lemma ScanBracketed(open: char, inner: string, close: char, depth: nat)
    requires (open == '[' && close == ']') || (open == '{' && close == '}')
    requires depth + 1 <= MAX_COMPONENT_DEPTH && ScanFrom(Outside(depth + 1), inner) == Some(Outside(depth + 1))
    ensures ScanFrom(Outside(depth), [open] + inner + [close]) == Some(Outside(depth))
  {
    hide ScanFrom;
    ScanOne(Outside(depth), open);
    ScanOne(Outside(depth + 1), close);
    ScanAppend(Outside(depth), [open], inner);
    ScanAppend(Outside(depth), [open] + inner, [close]);
  }

  /** A printed document passes the bounding scan and leaves it as it found it. */
  lemma {:induction false} ScanPrinted(d: Doc, depth: nat)
    requires depth + Height(d) <= MAX_COMPONENT_DEPTH
    ensures ScanFrom(Outside(depth), Print(d)) == Some(Outside(depth))
    decreases d, 1
  {
    hide ScanFrom;
    match d {
      case Str(text) => ScanQuote(text, depth);
      case Arr(items) =>
        ScanItems(items, depth + 1);
        ScanBracketed('[', PrintItems(items), ']', depth);
      case Obj(fields) =>
        ScanFields(fields, depth + 1);
        ScanBracketed('{', PrintFields(fields), '}', depth);
    }
  }

  lemma {:induction false} ScanItems(items: seq<Doc>, depth: nat)
    requires depth + ItemsHeight(items) <= MAX_COMPONENT_DEPTH
    ensures ScanFrom(Outside(depth), PrintItems(items)) == Some(Outside(depth))
    decreases items, 2
  {
    if items != [] {
      hide Print, Height;
      ScanPrinted(items[0], depth);
      if |items| > 1 {
        ScanItems(items[1..], depth);
        hide ScanFrom, PrintItems;
        PrintItemsStep(items);
        ScanOne(Outside(depth), ',');
        ScanAppend(Outside(depth), Print(items[0]), ",");
        ScanAppend(Outside(depth), Print(items[0]) + ",", PrintItems(items[1..]));
      }
    }
  }

  lemma {:induction false} ScanFields(fields: seq<Field>, depth: nat)
    requires depth + FieldsHeight(fields) <= MAX_COMPONENT_DEPTH
    ensures ScanFrom(Outside(depth), PrintFields(fields)) == Some(Outside(depth))
    decreases fields, 2
  {
    if fields != [] {
      hide Print, Height, Quote;
      var name, value := Quote(fields[0].name), Print(fields[0].value);
      ScanQuote(fields[0].name, depth);
      ScanPrinted(fields[0].value, depth);
      if |fields| > 1 { ScanFields(fields[1..], depth); }
      hide ScanFrom, PrintFields;
      PrintFieldsStep(fields);
      ScanOne(Outside(depth), ':');
      ScanOne(Outside(depth), ',');
      ScanAppend(Outside(depth), name, ":");
      ScanAppend(Outside(depth), name + ":", value);
      if |fields| > 1 {
        ScanAppend(Outside(depth), name + ":" + value, ",");
        ScanAppend(Outside(depth), name + ":" + value + ",", PrintFields(fields[1..]));
      }
    }
  }

  lemma {:induction false} ItemsHeightBound(items: seq<Doc>, h: nat)
    requires forall d | d in items :: Height(d) <= h
    ensures ItemsHeight(items) <= h
    decreases |items|
  {
    if items != [] { ItemsHeightBound(items[1..], h); }
  }

  lemma FlatHeight(fields: seq<Field>)
    requires forall f | f in fields :: f.value.Str?
    ensures FieldsHeight(fields) == 0
    decreases |fields|
  {
    if fields != [] { FlatHeight(fields[1..]); }
  }

  lemma FlatDocs(a: Action, i: ListItem, r: KvRow)
    ensures Height(ActionDoc(a)) == 1 && Height(ItemDoc(i)) == 1 && Height(RowDoc(r)) == 1
  {
    FlatHeight(ActionDoc(a).fields);
    FlatHeight(ItemDoc(i).fields);
    FlatHeight(RowDoc(r).fields);
  }

  lemma {:induction false} FieldsHeightBound(fields: seq<Field>, h: nat)
    requires forall f | f in fields :: Height(f.value) <= h
    ensures FieldsHeight(fields) <= h
    decreases |fields|
  {
    if fields != [] { FieldsHeightBound(fields[1..], h); }
  }

  lemma {:induction false} ListHeight<T>(items: seq<T>, doc: T -> Doc, h: nat)
    requires forall x | x in items :: Height(doc(x)) <= h
    ensures Height(Arr(DocsOf(items, doc))) <= h + 1
  {
    var docs := DocsOf(items, doc);
    forall d | d in docs ensures Height(d) <= h {
      var k :| 0 <= k < |docs| && docs[k] == d;
      assert items[k] in items;
    }
    ItemsHeightBound(docs, h);
  }

  lemma BlockHeight(b: Block)
    ensures Height(BlockDoc(b)) <= 3
  {
    hide ActionDoc, ItemDoc, RowDoc, ItemsHeight, DocsOf;
    match b {
      case Card(_, _, actions) =>
        forall a | a in actions ensures Height(ActionDoc(a)) <= 1 {
          FlatDocs(a, ListItem("", "", Envelope), KvRow("", ""));
        }
        ListHeight(actions, ActionDoc, 1);
      case ListBlock(items) =>
        forall i | i in items ensures Height(ItemDoc(i)) <= 1 { FlatDocs(Action("", ""), i, KvRow("", "")); }
        ListHeight(items, ItemDoc, 1);
      case Kv(rows) =>
        forall r | r in rows ensures Height(RowDoc(r)) <= 1 { FlatDocs(Action("", ""), ListItem("", "", Envelope), r); }
        ListHeight(rows, RowDoc, 1);
      case _ =>
    }
    FieldsHeightBound(BlockDoc(b).fields, 2);
  }

  lemma EnvelopeHeight(blocks: seq<Block>)
    ensures Height(EnvelopeDoc(blocks)) <= 5
  {
    hide BlockDoc;
    forall b | b in blocks ensures Height(BlockDoc(b)) <= 3 { BlockHeight(b); }
    ListHeight(blocks, BlockDoc, 3);
    FieldsHeightBound(EnvelopeDoc(blocks).fields, 4);
  }

  // ---------------------------------------------------------------- the main results

  /** The canonical text of valid blocks reads as those blocks, when it is not too long. */
  lemma CanonicalReads(href: Policy, blocks: seq<Block>)
    requires ValidBlocks(href, blocks) && H.Utf8Bytes(Print(EnvelopeDoc(blocks))) <= MAX_COMPONENT_BYTES
    ensures Validate(href, Print(EnvelopeDoc(blocks))) == Components(blocks)
  {
    EnvelopeHeight(blocks);
    hide Height, EnvelopeDoc, Print, Denote, ParseValue, ValidBlocks, ScanFrom, Parse;
    ScanPrinted(EnvelopeDoc(blocks), 0);
    ParsePrint(EnvelopeDoc(blocks));
    ReadEnvelope(href, blocks);
  }

  lemma ValidatedIsValid(href: Policy, raw: string)
    requires Validate(href, raw).Components?
    ensures ValidBlocks(href, Validate(href, raw).blocks)
  {
    hide ParseValue, Parse, Bounded, ValidBlocks;
    ParsedIsValid(href, Parse(raw).value);
  }

  /** Whatever the forbidden text, a reply that is let through means what the raw reply meant. */
  lemma CanonicalPreservesMeaning(href: Policy, raw: string, forbidden: Option<string>)
    requires CanonicalReply(href, raw, forbidden).Some?
    ensures Validate(href, CanonicalReply(href, raw, forbidden).value) == Validate(href, raw)
  {
    hide Refused, DocContains, EnvelopeDoc, Print, ValidBlocks, ParseEnvelope;
    if Validate(href, raw).Components? {
      var blocks := Validate(href, raw).blocks;
      ValidatedIsValid(href, raw);
      if H.Utf8Bytes(Print(EnvelopeDoc(blocks))) <= MAX_COMPONENT_BYTES { CanonicalReads(href, blocks); }
    }
  }

  /** Without a forbidden text every reply is let through, a second pass changes nothing, and what is
      no component envelope comes back byte for byte. */
  lemma CanonicalIsIdempotent(href: Policy, raw: string, forbidden: Option<string>)
    requires forbidden.None? || forbidden.value == ""
    ensures var once := CanonicalReply(href, raw, forbidden);
            && once.Some? && CanonicalReply(href, once.value, forbidden) == once
            && (Validate(href, raw).Fallback? ==> once.value == raw)
  {
    CanonicalPreservesMeaning(href, raw, forbidden);
    hide DocContains, EnvelopeDoc, Print, Validate;
  }

  /** Two replies with the same blocks have the same canonical text, when that is short enough: how a
      reply was spaced, escaped or ordered, or which repeated names were overwritten, does not show. */
  lemma CanonicalIsCanonical(href: Policy, a: string, b: string)
    requires Validate(href, a) == Validate(href, b) && Validate(href, a).Components?
    requires H.Utf8Bytes(Print(EnvelopeDoc(Validate(href, a).blocks))) <= MAX_COMPONENT_BYTES
    ensures CanonicalReply(href, a, None) == CanonicalReply(href, b, None)
  {
    hide EnvelopeDoc, Print, Validate;
  }

  // ---------------------------------------------------------------- the scan for a forbidden text

  lemma UnescapePlain(c: char, rest: string)
    requires c != '\\'
    ensures Unescape([c] + rest) == [c] + Unescape(rest)
  {
    assert ([c] + rest)[1..] == rest;
  }

  lemma UnescapeChar(c: char, rest: string)
    ensures Unescape(EscapeChar(c) + rest) == [c] + Unescape(rest)
  {
    if Escaped(c) {
      EscapeRoundTrip(c, rest);
      assert (EscapeChar(c) + rest)[|EscapeChar(c)|..] == rest;
    } else {
      PlainChar(c);
      UnescapePlain(c, rest);
    }
  }

  lemma EscapeTextStep(s: string)
    ensures EscapeText(s) == if s == "" then "" else EscapeChar(s[0]) + EscapeText(s[1..])
  {}

  /** Escaping hides nothing from the scan. */
  lemma {:induction false} UnescapeEscaped(s: string, rest: string)
    ensures Unescape(EscapeText(s) + rest) == s + Unescape(rest)
    decreases |s|
  {
    hide Unescape, EscapeChar, EscapeText;
    EscapeTextStep(s);
    if s == "" {
      assert EscapeText(s) + rest == rest;
    } else {
      var tail := EscapeText(s[1..]) + rest;
      assert EscapeText(s) + rest == EscapeChar(s[0]) + tail;
      UnescapeChar(s[0], tail);
      UnescapeEscaped(s[1..], rest);
      assert [s[0]] + (s[1..] + Unescape(rest)) == s + Unescape(rest);
    }
  }

  lemma UnescapeQuoted(s: string, rest: string)
    ensures Unescape(Quote(s) + rest) == "\"" + s + "\"" + Unescape(rest)
  {
    hide Unescape, EscapeText;
    assert Quote(s) + rest == "\"" + (EscapeText(s) + ("\"" + rest));
    UnescapePlain('"', EscapeText(s) + ("\"" + rest));
    UnescapeEscaped(s, "\"" + rest);
    UnescapePlain('"', rest);
  }

  /** The text `at` some place of `s`, with what stands before and after it. */
  lemma ContainsInside(a: string, s: string, b: string, needle: string)
    requires Contains(s, needle)
    ensures Contains(a + s + b, needle)
  {
    var i: nat :| i <= |s| && OccursAt(s, needle, i);
    assert (a + s + b)[|a| + i..|a| + i + |needle|] == s[i..i + |needle|];
    assert OccursAt(a + s + b, needle, |a| + i);
  }

  /** The structure-blind scan finds in a printed reply whatever one of its decoded fields holds, and
      leaves the rest of the input as it would be scanned on its own. */
  lemma {:induction false} ScanSeesFields(d: Doc, rest: string, needle: string) returns (seen: string)
    ensures Unescape(Print(d) + rest) == seen + Unescape(rest)
    ensures DocContains(d, needle) ==> Contains(seen, needle)
    decreases d, 1
  {
    hide Unescape, Contains, PrintItems, PrintFields, Quote;
    match d {
      case Str(text) =>
        UnescapeQuoted(text, rest);
        seen := "\"" + text + "\"";
        if Contains(text, needle) { ContainsInside("\"", text, "\"", needle); }
      case Arr(items) =>
        var inner := ScanSeesItems(items, "]" + rest, needle);
        assert Print(d) + rest == "[" + (PrintItems(items) + ("]" + rest));
        UnescapePlain('[', PrintItems(items) + ("]" + rest));
        UnescapePlain(']', rest);
        seen := "[" + inner + "]";
        if Contains(inner, needle) { ContainsInside("[", inner, "]", needle); }
      case Obj(fields) =>
        var inner := ScanSeesEach(fields, "}" + rest, needle);
        assert Print(d) + rest == "{" + (PrintFields(fields) + ("}" + rest));
        UnescapePlain('{', PrintFields(fields) + ("}" + rest));
        UnescapePlain('}', rest);
        seen := "{" + inner + "}";
        if Contains(inner, needle) { ContainsInside("{", inner, "}", needle); }
    }
  }

  lemma {:induction false} ScanSeesItems(items: seq<Doc>, rest: string, needle: string) returns (seen: string)
    ensures Unescape(PrintItems(items) + rest) == seen + Unescape(rest)
    ensures (exists i | 0 <= i < |items| :: DocContains(items[i], needle)) ==> Contains(seen, needle)
    decreases items, 2
  {
    hide Unescape, Contains, Print, DocContains, PrintItems;
    seen := "";
    if items == [] {
      NothingPrinted();
      assert PrintItems(items) + rest == rest;
    } else {
      PrintItemsStep(items);
      var tail := if |items| == 1 then rest else "," + (PrintItems(items[1..]) + rest);
      assert PrintItems(items) + rest == Print(items[0]) + tail;
      var first := ScanSeesFields(items[0], tail, needle);
      seen := first;
      if |items| > 1 {
        var more := ScanSeesItems(items[1..], rest, needle);
        UnescapePlain(',', PrintItems(items[1..]) + rest);
        seen := first + "," + more;
        EitherSide(first, more, needle);
        assert forall i | 1 <= i < |items| :: items[i] == items[1..][i - 1];
      }
    }
  }

  /** What is found on either side of a comma is found. */
  lemma EitherSide(first: string, more: string, needle: string)
    ensures Contains(first, needle) || Contains(more, needle) ==> Contains(first + "," + more, needle)
  {
    if Contains(first, needle) {
      ContainsInside("", first, "," + more, needle);
      assert "" + first + ("," + more) == first + "," + more;
    }
    if Contains(more, needle) {
      ContainsInside(first + ",", more, "", needle);
      assert first + "," + more + "" == first + "," + more;
    }
    hide Contains;
  }

  lemma {:induction false} ScanSeesField(field: Field, rest: string, needle: string) returns (seen: string)
    ensures Unescape(Quote(field.name) + ":" + Print(field.value) + rest) == seen + Unescape(rest)
    ensures Contains(field.name, needle) || DocContains(field.value, needle) ==> Contains(seen, needle)
    decreases field, 2
  {
    hide Unescape, Contains, Print, DocContains, Quote;
    var name, value := field.name, Print(field.value);
    assert Quote(name) + ":" + value + rest == Quote(name) + (":" + (value + rest));
    UnescapeQuoted(name, ":" + (value + rest));
    UnescapePlain(':', value + rest);
    var inner := ScanSeesFields(field.value, rest, needle);
    seen := "\"" + name + "\":" + inner;
    assert Unescape(Quote(name) + ":" + value + rest) == "\"" + name + "\"" + (":" + (inner + Unescape(rest)));
    if Contains(name, needle) {
      ContainsInside("\"", name, "\":" + inner, needle);
      assert "\"" + name + ("\":" + inner) == seen;
    }
    if Contains(inner, needle) {
      ContainsInside("\"" + name + "\":", inner, "", needle);
      assert "\"" + name + "\":" + inner + "" == seen;
    }
  }

  lemma {:induction false} ScanSeesEach(fields: seq<Field>, rest: string, needle: string) returns (seen: string)
    ensures Unescape(PrintFields(fields) + rest) == seen + Unescape(rest)
    ensures (exists i | 0 <= i < |fields| ::
             Contains(fields[i].name, needle) || DocContains(fields[i].value, needle)) ==>
              Contains(seen, needle)
    decreases fields, 3
  {
    hide Unescape, Contains, Print, DocContains, PrintFields, Quote;
    seen := "";
    if fields == [] {
      NothingPrinted();
      assert PrintFields(fields) + rest == rest;
    } else {
      PrintFieldsStep(fields);
      var head := Quote(fields[0].name) + ":" + Print(fields[0].value);
      var tail := if |fields| == 1 then rest else "," + (PrintFields(fields[1..]) + rest);
      assert PrintFields(fields) + rest == head + tail;
      var first := ScanSeesField(fields[0], tail, needle);
      seen := first;
      if |fields| > 1 {
        var more := ScanSeesEach(fields[1..], rest, needle);
        UnescapePlain(',', PrintFields(fields[1..]) + rest);
        seen := first + "," + more;
        EitherSide(first, more, needle);
        assert forall i | 1 <= i < |fields| :: fields[i] == fields[1..][i - 1];
      }
    }
  }
}
