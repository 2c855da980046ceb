/** The canonical text of blocks, letter by letter, what the scan for a forbidden text looks through, and
    what a reply comes back as. */
module CanonicalText {
  import opened Wrappers
  import opened Json
  import opened JsonGrammar
  import opened Components
  import opened ReplyVerdicts
  import H = History

  // ---------------------------------------------------------------- letters

  const LOWER_DIGITS := "0123456789abcdef"

  /** A character in a printed string: itself unless it must be escaped, and then its short escape or
      four digits in small letters. */
  ghost predicate PrintedFor(s: string, c: char) {
    if c == '"' then s == "\\\"" else if c == '\\' then s == "\\\\"
    else if c == '\U{8}' then s == "\\b" else if c == '\U{C}' then s == "\\f" else if c == '\U{A}' then s == "\\n"
    else if c == '\U{D}' then s == "\\r" else if c == '\U{9}' then s == "\\t"
    else if c < ' ' then s == "\\u00" + [LOWER_DIGITS[c as nat / 16], LOWER_DIGITS[c as nat % 16]]
    else s == [c]
  }

  lemma PrintedExactly(c: char)
    ensures PrintedFor(EscapeChar(c), c)
  {}

  /** A printed string is its printed characters, one after another, between quotes. */
  lemma {:induction false} PrintedText(s: string) returns (parts: seq<string>)
    ensures |parts| == |s| && (forall i | 0 <= i < |s| :: PrintedFor(parts[i], s[i])) && EscapeText(s) == Chain(parts)
    ensures Quote(s) == "\"" + Chain(parts) + "\""
    decreases |s|
  {
    if s == "" {
      parts := [];
    } else {
      var rest := PrintedText(s[1..]);
      PrintedExactly(s[0]);
      parts := [EscapeChar(s[0])] + rest;
      assert parts[1..] == rest;
      assert forall i | 1 <= i < |s| :: s[1..][i - 1] == s[i];
    }
    hide PrintedFor, EscapeChar;
  }

  function Chain(parts: seq<string>): string { if parts == [] then "" else parts[0] + Chain(parts[1..]) }

  /** Texts with commas between. */
  function Commas(parts: seq<string>): string {
    if parts == [] then "" else if |parts| == 1 then parts[0] else parts[0] + "," + Commas(parts[1..])
  }

  // ---------------------------------------------------------------- blocks

  function Two(a: string, x: string, b: string, y: string): string { "{" + a + ":" + x + "," + b + ":" + y + "}" }

  function Three(a: string, x: string, b: string, y: string, c: string, z: string): string {
    "{" + a + ":" + x + "," + b + ":" + y + "," + c + ":" + z + "}"
  }

  function Four(a: string, x: string, b: string, y: string, c: string, z: string, d: string, w: string): string {
    "{" + a + ":" + x + "," + b + ":" + y + "," + c + ":" + z + "," + d + ":" + w + "}"
  }

  function Bare(word: string): string { "\"" + word + "\"" }

  function ActionText(a: Action): string { Two(Bare("href"), Quote(a.href), Bare("label"), Quote(a.caption)) }

  function ItemText(i: ListItem): string {
    Three(Bare("detail"), Quote(i.detail), Bare("icon"), Quote(IconWord(i.icon)), Bare("title"), Quote(i.title))
  }

  function RowText(r: KvRow): string { Two(Bare("label"), Quote(r.caption), Bare("value"), Quote(r.value)) }

  function Bracketed(parts: seq<string>): string { "[" + Commas(parts) + "]" }

  function TextsOf<T>(items: seq<T>, text: T -> string): (r: seq<string>)
    ensures |r| == |items| && forall i | 0 <= i < |r| :: r[i] == text(items[i])
  {
    seq(|items|, (i: nat) requires i < |items| => text(items[i]))
  }

  function BlockText(b: Block): string {
    match b
    case Markdown(text) => Two(Bare("text"), Quote(text), Bare("type"), Bare("markdown"))
    case Card(title, body, actions) =>
      Four(Bare("actions"), Bracketed(TextsOf(actions, ActionText)), Bare("body"), Quote(body), Bare("title"),
           Quote(title),
           Bare("type"), Bare("card"))
    case ListBlock(items) => Two(Bare("items"), Bracketed(TextsOf(items, ItemText)), Bare("type"), Bare("list"))
    case Kv(rows) => Two(Bare("rows"), Bracketed(TextsOf(rows, RowText)), Bare("type"), Bare("kv"))
    case Callout(tone, text) =>
      Three(Bare("text"), Quote(text), Bare("tone"), Quote(ToneWord(tone)), Bare("type"), Bare("callout"))
  }

  /** Compact, with the names of every object in order. */
  function EnvelopeText(blocks: seq<Block>): string {
    Two(Bare("blocks"), Bracketed(TextsOf(blocks, BlockText)), Bare("kind"), Bare("components"))
  }

  lemma {:induction false} ItemsPrinted<T>(items: seq<T>, doc: T -> Doc, text: T -> string)
    requires forall i | 0 <= i < |items| :: Print(doc(items[i])) == text(items[i])
    ensures PrintItems(DocsOf(items, doc)) == Commas(TextsOf(items, text))
    decreases |items|
  {
    if items == [] {
      assert DocsOf(items, doc) == [] && TextsOf(items, text) == [];
    } else {
      var docs, texts := DocsOf(items, doc), TextsOf(items, text);
      ItemsPrinted(items[1..], doc, text);
      assert docs[1..] == DocsOf(items[1..], doc);
      assert texts[1..] == TextsOf(items[1..], text);
      hide Print, DocsOf;
    }
  }

  predicate Lower(s: string) { forall i | 0 <= i < |s| :: 'a' <= s[i] <= 'z' }

  lemma NamesAreLower()
    ensures Lower("text") && Lower("type") && Lower("tone") && Lower("body") && Lower("title") && Lower("label")
    ensures Lower("value") && Lower("href") && Lower("detail") && Lower("icon") && Lower("items") && Lower("rows")
    ensures Lower("actions") && Lower("blocks") && Lower("kind")
  {}

  lemma KindsAreLower()
    ensures Lower("markdown") && Lower("card") && Lower("list") && Lower("kv") && Lower("callout")
            && Lower("components")
  {}

  /** The words of the grammar print as themselves. */
  lemma WordPrinted(s: string)
    requires Lower(s)
    ensures Quote(s) == Bare(s)
  {
    PlainWord(s);
    hide EscapeText;
  }

  lemma {:induction false} PlainWord(s: string)
    requires Lower(s)
    ensures EscapeText(s) == s
    decreases |s|
  {
    if s != "" {
      PlainWord(s[1..]);
      assert [s[0]] + s[1..] == s;
    }
  }

  lemma ObjPrinted(fields: seq<Field>)
    ensures Print(Obj(fields)) == "{" + PrintFields(fields) + "}"
  {}

  lemma LastPrinted(f: Field)
    ensures PrintFields([f]) == Quote(f.name) + ":" + Print(f.value)
  {}

  lemma NextPrinted(f: Field, rest: seq<Field>)
    requires rest != []
    ensures PrintFields([f] + rest) == Quote(f.name) + ":" + Print(f.value) + "," + PrintFields(rest)
  {
    assert ([f] + rest)[1..] == rest;
    hide Quote, Print;
  }

  lemma TwoPrinted(a: string, x: Doc, b: string, y: Doc)
    requires Lower(a) && Lower(b)
    ensures Print(Obj([Field(a, x), Field(b, y)])) == Two(Bare(a), Print(x), Bare(b), Print(y))
  {
    hide Quote, Bare, Print, PrintFields, Lower;
    var f, g := Field(a, x), Field(b, y);
    WordPrinted(a);
    WordPrinted(b);
    ObjPrinted([f, g]);
    LastPrinted(g);
    NextPrinted(f, [g]);
    assert [f] + [g] == [f, g];
  }

  lemma ThreePrinted(a: string, x: Doc, b: string, y: Doc, c: string, z: Doc)
    requires Lower(a) && Lower(b) && Lower(c)
    ensures Print(Obj([Field(a, x), Field(b, y), Field(c, z)])) ==
            Three(Bare(a), Print(x), Bare(b), Print(y), Bare(c), Print(z))
  {
    hide Quote, Bare, Print, PrintFields, Lower;
    var f, g, h := Field(a, x), Field(b, y), Field(c, z);
    WordPrinted(a);
    WordPrinted(b);
    WordPrinted(c);
    ObjPrinted([f, g, h]);
    LastPrinted(h);
    NextPrinted(g, [h]);
    NextPrinted(f, [g, h]);
    assert [g] + [h] == [g, h] && [f] + [g, h] == [f, g, h];
  }

  lemma FourPrinted(a: string, x: Doc, b: string, y: Doc, c: string, z: Doc, d: string, w: Doc)
    requires Lower(a) && Lower(b) && Lower(c) && Lower(d)
    ensures Print(Obj([Field(a, x), Field(b, y), Field(c, z), Field(d, w)])) ==
            Four(Bare(a), Print(x), Bare(b), Print(y), Bare(c), Print(z), Bare(d), Print(w))
  {
    hide Quote, Bare, Print, PrintFields, Lower;
    var f, g, h, k := Field(a, x), Field(b, y), Field(c, z), Field(d, w);
    WordPrinted(a);
    WordPrinted(b);
    WordPrinted(c);
    WordPrinted(d);
    ObjPrinted([f, g, h, k]);
    LastPrinted(k);
    NextPrinted(h, [k]);
    NextPrinted(g, [h, k]);
    NextPrinted(f, [g, h, k]);
    assert [h] + [k] == [h, k] && [g] + [h, k] == [g, h, k] && [f] + [g, h, k] == [f, g, h, k];
  }

  lemma StrPrinted(text: string)
    ensures Print(Str(text)) == Quote(text)
  {}

  lemma ArrPrinted(items: seq<Doc>)
    ensures Print(Arr(items)) == "[" + PrintItems(items) + "]"
  {}

  lemma ActionPrinted(a: Action)
    ensures Print(ActionDoc(a)) == ActionText(a)
  {
    NamesAreLower();
    hide Quote, Bare, Print, Two, Lower;
    TwoPrinted("href", Str(a.href), "label", Str(a.caption));
    StrPrinted(a.href);
    StrPrinted(a.caption);
  }

  lemma RowPrinted(r: KvRow)
    ensures Print(RowDoc(r)) == RowText(r)
  {
    NamesAreLower();
    hide Quote, Bare, Print, Two, Lower;
    TwoPrinted("label", Str(r.caption), "value", Str(r.value));
    StrPrinted(r.caption);
    StrPrinted(r.value);
  }

  lemma SameWords(i: Icon, t: Tone)
    ensures IconName(i) == IconWord(i) && ToneName(t) == ToneWord(t)
  {}

  lemma ItemPrinted(i: ListItem)
    ensures Print(ItemDoc(i)) == ItemText(i)
  {
    NamesAreLower();
    SameWords(i.icon, Info);
    hide Quote, Bare, Print, Three, IconName, IconWord, Lower;
    ThreePrinted("detail", Str(i.detail), "icon", Str(IconName(i.icon)), "title", Str(i.title));
    StrPrinted(i.detail);
    StrPrinted(IconName(i.icon));
    StrPrinted(i.title);
  }

  lemma KindPrinted(kind: string)
    requires Lower(kind)
    ensures Print(Str(kind)) == Bare(kind)
  {
    StrPrinted(kind);
    WordPrinted(kind);
    hide Quote, Bare, Print, Lower;
  }

  lemma ListPrinted<T>(items: seq<T>, doc: T -> Doc, text: T -> string)
    requires forall i | 0 <= i < |items| :: Print(doc(items[i])) == text(items[i])
    ensures Print(Arr(DocsOf(items, doc))) == Bracketed(TextsOf(items, text))
  {
    ItemsPrinted(items, doc, text);
    ArrPrinted(DocsOf(items, doc));
    hide Print, PrintItems, Commas, TextsOf, DocsOf;
  }

  lemma CardPrinted(title: string, body: string, actions: seq<Action>)
    ensures Print(BlockDoc(Card(title, body, actions))) == BlockText(Card(title, body, actions))
  {
    NamesAreLower();
    KindsAreLower();
    hide Quote, Bare, Print, Four, Bracketed, TextsOf, DocsOf, ActionDoc, ActionText, Lower;
    FourPrinted("actions", Arr(DocsOf(actions, ActionDoc)), "body", Str(body), "title", Str(title), "type",
                Str("card"));
    forall i | 0 <= i < |actions| ensures Print(ActionDoc(actions[i])) == ActionText(actions[i]) {
      ActionPrinted(actions[i]);
    }
    ListPrinted(actions, ActionDoc, ActionText);
    KindPrinted("card");
    StrPrinted(title);
    StrPrinted(body);
  }

  lemma CalloutPrinted(tone: Tone, text: string)
    ensures Print(BlockDoc(Callout(tone, text))) == BlockText(Callout(tone, text))
  {
    NamesAreLower();
    KindsAreLower();
    SameWords(Envelope, tone);
    hide Quote, Bare, Print, Three, ToneName, ToneWord, Lower;
    ThreePrinted("text", Str(text), "tone", Str(ToneName(tone)), "type", Str("callout"));
    KindPrinted("callout");
    StrPrinted(text);
    StrPrinted(ToneName(tone));
  }

  /** Every block prints as its text. */
  lemma BlockPrinted(b: Block)
    ensures Print(BlockDoc(b)) == BlockText(b)
  {
    NamesAreLower();
    KindsAreLower();
    hide Quote, Bare, Print, Two, Three, Four, Bracketed, TextsOf, DocsOf, ItemDoc, ItemText, RowDoc, RowText, Lower;
    match b {
      case Markdown(text) =>
        TwoPrinted("text", Str(text), "type", Str("markdown"));
        StrPrinted(text);
        KindPrinted("markdown");
      case Card(title, body, actions) => CardPrinted(title, body, actions);
      case ListBlock(items) =>
        forall i | 0 <= i < |items| ensures Print(ItemDoc(items[i])) == ItemText(items[i]) { ItemPrinted(items[i]); }
        ListPrinted(items, ItemDoc, ItemText);
        TwoPrinted("items", Arr(DocsOf(items, ItemDoc)), "type", Str("list"));
        KindPrinted("list");
      case Kv(rows) =>
        forall i | 0 <= i < |rows| ensures Print(RowDoc(rows[i])) == RowText(rows[i]) { RowPrinted(rows[i]); }
        ListPrinted(rows, RowDoc, RowText);
        TwoPrinted("rows", Arr(DocsOf(rows, RowDoc)), "type", Str("kv"));
        KindPrinted("kv");
      case Callout(tone, text) => CalloutPrinted(tone, text);
    }
  }

  /** The canonical form of blocks is this text. */
  lemma EnvelopePrinted(blocks: seq<Block>)
    ensures Print(EnvelopeDoc(blocks)) == EnvelopeText(blocks)
  {
    NamesAreLower();
    KindsAreLower();
    hide Quote, Bare, Print, Two, Bracketed, TextsOf, DocsOf, BlockText, BlockDoc, Lower;
    TwoPrinted("blocks", Arr(DocsOf(blocks, BlockDoc)), "kind", Str("components"));
    forall i | 0 <= i < |blocks| ensures Print(BlockDoc(blocks[i])) == BlockText(blocks[i]) { BlockPrinted(blocks[i]); }
    ListPrinted(blocks, BlockDoc, BlockText);
    KindPrinted("components");
  }

  // ---------------------------------------------------------------- what the scan looks through

  /** One escape or one character after another: an escape that spells a character stands for it, any
      other character for itself. */
  lemma UnescapeExactly(s: string, c: char, n: nat)
    requires n <= |s| && EscapeFor(s[..n], c)
    ensures 0 < n && Unescape(s) == [c] + Unescape(s[n..])
  {
    EscapeExactly(s, c, n);
    UnescapeOne(s);
    hide Escape, EscapeFor, Unescape;
  }

  lemma UnescapePlain(s: string)
    requires s != "" && !exists c, n: nat | n <= |s| :: EscapeFor(s[..n], c)
    ensures Unescape(s) == [s[0]] + Unescape(s[1..])
  {
    if Escape(s).Some? { EscapeExactly(s, Escape(s).value.0, Escape(s).value.1); }
    UnescapeOne(s);
    hide Escape, EscapeFor, Unescape;
  }

  /** The names, the words and the texts of a block. */
  function ActionWords(a: Action): set<string> { {"href", "label", a.href, a.caption} }

  function ItemWords(i: ListItem): set<string> { {"detail", "icon", "title", i.detail, IconWord(i.icon), i.title} }

  function RowWords(r: KvRow): set<string> { {"label", "value", r.caption, r.value} }

  function BlockWords(b: Block): set<string> {
    match b
    case Markdown(text) => {"text", "type", "markdown", text}
    case Card(title, body, actions) =>
      {"actions", "body", "title", "type", "card", title, body} + set a, w | a in actions && w in ActionWords(a) :: w
    case ListBlock(items) => {"items", "type", "list"} + set i, w | i in items && w in ItemWords(i) :: w
    case Kv(rows) => {"rows", "type", "kv"} + set r, w | r in rows && w in RowWords(r) :: w
    case Callout(tone, text) => {"text", "tone", "type", "callout", ToneWord(tone), text}
  }

  function EnvelopeWords(blocks: seq<Block>): set<string> {
    {"blocks", "kind", "components"} + set b, w | b in blocks && w in BlockWords(b) :: w
  }

  ghost predicate SomeContains(words: set<string>, needle: string) { exists w | w in words :: Contains(w, needle) }

  lemma FlatContains(fields: seq<Field>, words: set<string>, needle: string)
    requires forall i | 0 <= i < |fields| :: fields[i].value.Str?
    requires forall i | 0 <= i < |fields| :: fields[i].name in words && fields[i].value.text in words
    requires forall w | w in words :: exists i ::
             0 <= i < |fields| && (fields[i].name == w || fields[i].value.text == w)
    ensures DocContains(Obj(fields), needle) <==> SomeContains(words, needle)
  {
    hide Contains;
    if w :| w in words && Contains(w, needle) {
      var i :| 0 <= i < |fields| && (fields[i].name == w || fields[i].value.text == w);
      assert Contains(fields[i].name, needle) || DocContains(fields[i].value, needle);
    }
  }

  lemma ActionContains(a: Action, needle: string)
    ensures DocContains(ActionDoc(a), needle) <==> SomeContains(ActionWords(a), needle)
  {
    var f := [Field("href", Str(a.href)), Field("label", Str(a.caption))];
    assert f[0].name == "href" && f[1].name == "label" && f[0].value == Str(a.href) && f[1].value == Str(a.caption);
    FlatContains(f, ActionWords(a), needle);
    hide Contains, DocContains, SomeContains;
  }

  lemma RowContains(r: KvRow, needle: string)
    ensures DocContains(RowDoc(r), needle) <==> SomeContains(RowWords(r), needle)
  {
    var f := [Field("label", Str(r.caption)), Field("value", Str(r.value))];
    assert f[0].name == "label" && f[1].name == "value" && f[0].value == Str(r.caption) && f[1].value == Str(r.value);
    FlatContains(f, RowWords(r), needle);
    hide Contains, DocContains, SomeContains;
  }

  lemma ItemContains(i: ListItem, needle: string)
    ensures DocContains(ItemDoc(i), needle) <==> SomeContains(ItemWords(i), needle)
  {
    SameWords(i.icon, Info);
    var f := [Field("detail", Str(i.detail)), Field("icon", Str(IconName(i.icon))), Field("title", Str(i.title))];
    assert f[0].name == "detail" && f[1].name == "icon" && f[2].name == "title";
    assert f[0].value == Str(i.detail) && f[1].value == Str(IconWord(i.icon)) && f[2].value == Str(i.title);
    FlatContains(f, ItemWords(i), needle);
    hide Contains, DocContains, SomeContains, IconName, IconWord;
  }

  lemma ListContains<T>(items: seq<T>, doc: T -> Doc, words: T -> set<string>, needle: string)
    requires forall i | 0 <= i < |items| ::
             DocContains(doc(items[i]), needle) <==> SomeContains(words(items[i]), needle)
    ensures DocContains(Arr(DocsOf(items, doc)), needle) <==> exists x | x in items :: SomeContains(words(x), needle)
  {
    var docs := DocsOf(items, doc);
    if DocContains(Arr(docs), needle) {
      var i :| 0 <= i < |docs| && DocContains(docs[i], needle);
      assert items[i] in items;
    }
    if x :| x in items && SomeContains(words(x), needle) {
      var i :| 0 <= i < |items| && items[i] == x;
      assert DocContains(docs[i], needle);
    }
    hide SomeContains;
  }

  /** An object whose first field is a list and whose other fields are texts. */
  lemma ListedContains(name: string, list: Doc, others: seq<Field>, words: set<string>, needle: string)
    requires forall i | 0 <= i < |others| :: others[i].value.Str?
    requires forall i | 0 <= i < |others| :: others[i].name in words && others[i].value.text in words
    requires name in words
    requires forall w | w in words :: w == name || exists i ::
             0 <= i < |others| && (others[i].name == w || others[i].value.text == w)
    ensures DocContains(Obj([Field(name, list)] + others), needle) <==>
            SomeContains(words, needle) || DocContains(list, needle)
  {
    hide Contains;
    var fields := [Field(name, list)] + others;
    assert fields[0] == Field(name, list) && forall i | 0 <= i < |others| :: fields[i + 1] == others[i];
    if DocContains(Obj(fields), needle) && !DocContains(list, needle) {
      var i :| 0 <= i < |fields| && (Contains(fields[i].name, needle) || DocContains(fields[i].value, needle));
      assert fields[i].name in words;
      if i > 0 { assert fields[i] == others[i - 1]; }
    }
    if w :| w in words && Contains(w, needle) {
      if w == name {
        assert Contains(fields[0].name, needle);
      } else {
        var i :| 0 <= i < |others| && (others[i].name == w || others[i].value.text == w);
        assert Contains(fields[i + 1].name, needle) || DocContains(fields[i + 1].value, needle);
      }
    }
    if DocContains(list, needle) { assert DocContains(fields[0].value, needle); }
  }

  lemma UnionContains<T>(words: set<string>, items: seq<T>, of: T -> set<string>, needle: string)
    ensures SomeContains(words + (set x, w | x in items && w in of(x) :: w), needle) <==>
            SomeContains(words, needle) || exists x | x in items :: SomeContains(of(x), needle)
  {
    hide Contains;
    var all := words + set x, w | x in items && w in of(x) :: w;
    if x :| x in items && SomeContains(of(x), needle) {
      var w :| w in of(x) && Contains(w, needle);
      assert w in all;
    }
    if w :| w in words && Contains(w, needle) { assert w in all; }
  }

  lemma TypedListContains<T>(name: string, kind: string, items: seq<T>, doc: T -> Doc, of: T -> set<string>,
                             needle: string)
    requires forall i | 0 <= i < |items| :: DocContains(doc(items[i]), needle) <==> SomeContains(of(items[i]), needle)
    ensures DocContains(Obj([Field(name, Arr(DocsOf(items, doc))), Field("type", Str(kind))]), needle) <==>
            SomeContains({name, "type", kind} + (set x, w | x in items && w in of(x) :: w), needle)
  {
    var others := [Field("type", Str(kind))];
    assert others[0].name == "type" && others[0].value == Str(kind);
    assert [Field(name, Arr(DocsOf(items, doc)))] + others ==
           [Field(name, Arr(DocsOf(items, doc))), Field("type", Str(kind))];
    ListedContains(name, Arr(DocsOf(items, doc)), others, {name, "type", kind}, needle);
    ListContains(items, doc, of, needle);
    UnionContains({name, "type", kind}, items, of, needle);
    hide SomeContains, DocContains, DocsOf;
  }

  lemma CardContains(title: string, body: string, actions: seq<Action>, needle: string)
    ensures DocContains(BlockDoc(Card(title, body, actions)), needle) <==>
            SomeContains(BlockWords(Card(title, body, actions)), needle)
  {
    var words := {"actions", "body", "title", "type", "card", title, body};
    var list := Arr(DocsOf(actions, ActionDoc));
    var others := [Field("body", Str(body)), Field("title", Str(title)), Field("type", Str("card"))];
    assert others[0].name == "body" && others[1].name == "title" && others[2].name == "type";
    assert others[0].value == Str(body) && others[1].value == Str(title) && others[2].value == Str("card");
    assert BlockDoc(Card(title, body, actions)) == Obj([Field("actions", list)] + others);
    ListedContains("actions", list, others, words, needle);
    forall i | 0 <= i < |actions| ensures DocContains(ActionDoc(actions[i]), needle) <==>
        SomeContains(ActionWords(actions[i]), needle)
    {
      ActionContains(actions[i], needle);
    }
    ListContains(actions, ActionDoc, ActionWords, needle);
    UnionContains(words, actions, ActionWords, needle);
    SameUnion(words, actions, ActionWords, BlockWords(Card(title, body, actions)));
    hide SomeContains, DocContains, DocsOf, ActionDoc, ActionWords;
  }

  lemma SameUnion<T>(words: set<string>, items: seq<T>, of: T -> set<string>, all: set<string>)
    requires all == words + set x, w | x in items && w in of(x) :: w
    ensures all == words + (set x, w | x in items && w in of(x) :: w)
  {}

  lemma BlockContains(b: Block, needle: string)
    ensures DocContains(BlockDoc(b), needle) <==> SomeContains(BlockWords(b), needle)
  {
    match b {
      case Markdown(text) =>
        var f := [Field("text", Str(text)), Field("type", Str("markdown"))];
        assert f[0].name == "text" && f[1].name == "type" && f[0].value == Str(text) && f[1].value == Str("markdown");
        FlatContains(f, BlockWords(b), needle);
      case Card(title, body, actions) => CardContains(title, body, actions, needle);
      case ListBlock(items) =>
        forall i | 0 <= i < |items| ensures DocContains(ItemDoc(items[i]), needle) <==>
            SomeContains(ItemWords(items[i]), needle)
        {
          ItemContains(items[i], needle);
        }
        TypedListContains("items", "list", items, ItemDoc, ItemWords, needle);
        assert BlockWords(b) == {"items", "type", "list"} + set i, w | i in items && w in ItemWords(i) :: w;
      case Kv(rows) =>
        forall i | 0 <= i < |rows| ensures DocContains(RowDoc(rows[i]), needle) <==>
            SomeContains(RowWords(rows[i]), needle)
        {
          RowContains(rows[i], needle);
        }
        TypedListContains("rows", "kv", rows, RowDoc, RowWords, needle);
        assert BlockWords(b) == {"rows", "type", "kv"} + set r, w | r in rows && w in RowWords(r) :: w;
      case Callout(tone, text) =>
        SameWords(Envelope, tone);
        var f := [Field("text", Str(text)), Field("tone", Str(ToneName(tone))), Field("type", Str("callout"))];
        assert f[0].name == "text" && f[1].name == "tone" && f[2].name == "type";
        assert f[0].value == Str(text) && f[1].value == Str(ToneWord(tone)) && f[2].value == Str("callout");
        FlatContains(f, BlockWords(b), needle);
    }
    hide SomeContains, DocContains, DocsOf, ItemDoc, ItemWords, RowDoc, RowWords, ToneName, ToneWord;
  }

  lemma EnvelopeContains(blocks: seq<Block>, needle: string)
    ensures DocContains(EnvelopeDoc(blocks), needle) <==> SomeContains(EnvelopeWords(blocks), needle)
  {
    var words, list := {"blocks", "kind", "components"}, Arr(DocsOf(blocks, BlockDoc));
    var others := [Field("kind", Str("components"))];
    assert others[0].name == "kind" && others[0].value == Str("components");
    assert EnvelopeDoc(blocks) == Obj([Field("blocks", list)] + others);
    ListedContains("blocks", list, others, words, needle);
    forall i | 0 <= i < |blocks| ensures DocContains(BlockDoc(blocks[i]), needle) <==>
        SomeContains(BlockWords(blocks[i]), needle)
    {
      BlockContains(blocks[i], needle);
    }
    ListContains(blocks, BlockDoc, BlockWords, needle);
    UnionContains(words, blocks, BlockWords, needle);
    hide SomeContains, DocContains, DocsOf, BlockDoc, BlockWords;
  }

  // ---------------------------------------------------------------- what a reply comes back as

  ghost predicate Within(s: string, needle: string) { exists a, b :: s == a + needle + b }

  ghost predicate SomeHold(words: set<string>, needle: string) { exists w | w in words :: Within(w, needle) }

  /** A text that must not get out stands in the raw reply, decoded or not, or in what it would show; and a
      reply too long to be looked through is treated as if it did. */
  ghost predicate Leaks(href: Policy, raw: string, secret: string) {
    || H.Utf8Bytes(raw) > 100_000
    || Within(Unescape(raw), secret)
    || exists blocks :: TakenFor(href, raw, blocks) && SomeHold(EnvelopeWords(blocks), secret)
  }

  lemma ContainsIs(s: string, needle: string)
    ensures Contains(s, needle) <==> Within(s, needle)
  {
    if a, b :| s == a + needle + b { assert OccursAt(s, needle, |a|); }
    if i: nat :| i <= |s| && OccursAt(s, needle, i) { assert s == s[..i] + needle + s[i + |needle|..]; }
  }

  lemma SomeContainsIs(words: set<string>, needle: string)
    ensures SomeContains(words, needle) <==> SomeHold(words, needle)
  {
    forall w ensures Contains(w, needle) <==> Within(w, needle) { ContainsIs(w, needle); }
    hide Contains, Within;
  }

  /** A reply is held back exactly when there is something it must not say and it leaks that; otherwise an
      envelope comes back as its canonical text, if that is not too long, and anything else as it came. */
  lemma CanonicalExactly(href: Policy, raw: string, forbidden: Option<string>)
    ensures CanonicalReply(href, raw, forbidden) == None <==>
            forbidden.Some? && forbidden.value != "" && Leaks(href, raw, forbidden.value)
    ensures CanonicalReply(href, raw, forbidden).Some? ==>
              var reply := CanonicalReply(href, raw, forbidden).value;
              && (forall blocks | TakenFor(href, raw, blocks) ::
                    reply == if H.Utf8Bytes(EnvelopeText(blocks)) <= 100_000 then EnvelopeText(blocks) else raw)
              && ((forall blocks :: !TakenFor(href, raw, blocks)) ==> reply == raw)
  {
    hide TakenFor, EnvelopeText, EnvelopeDoc, Validate, Unescape, Contains, SomeContains, EnvelopeWords, DocContains,
        Print, H.Utf8Bytes;
    hide Within, SomeHold;
    forall blocks
      ensures Validate(href, raw) == Components(blocks) <==> TakenFor(href, raw, blocks)
      ensures Print(EnvelopeDoc(blocks)) == EnvelopeText(blocks)
    {
      ValidateExactly(href, raw, blocks);
      EnvelopePrinted(blocks);
    }
    if forbidden.Some? {
      ContainsIs(Unescape(raw), forbidden.value);
      if Validate(href, raw).Components? {
        var blocks := Validate(href, raw).blocks;
        EnvelopeContains(blocks, forbidden.value);
        SomeContainsIs(EnvelopeWords(blocks), forbidden.value);
        assert TakenFor(href, raw, blocks);
      }
    }
  }
}
