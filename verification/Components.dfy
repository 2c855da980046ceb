/** Structured replies: the strict reading of a component envelope, and the canonical form kept at
    the provider boundary. */
module Components {
  import opened Wrappers
  import opened Json
  import H = History

  const MAX_BLOCKS := 40
  const MAX_STRING := 4_000
  const MAX_COMPONENT_BYTES := 100_000
  const MAX_COMPONENT_DEPTH := 8

  datatype Tone = Info | Warn | Success
  datatype Icon = Envelope | Calendar | Globe | Sparkle
  datatype Action = Action(caption: string, href: string)
  datatype ListItem = ListItem(title: string, detail: string, icon: Icon)
  datatype KvRow = KvRow(caption: string, value: string)

  datatype Block =
    | Markdown(text: string)
    | Card(title: string, body: string, actions: seq<Action>)
    | ListBlock(items: seq<ListItem>)
    | Kv(rows: seq<KvRow>)
    | Callout(tone: Tone, text: string)

  datatype Validated = Components(blocks: seq<Block>) | Fallback

  /** Which links are allowed; the URL policy itself is not part of this model. */
  type Policy = string -> bool

  // ---------------------------------------------------------------- bounds before parsing

  datatype Scan = Scan(depth: nat, inString: bool, escaped: bool)

  function ScanChar(st: Scan, c: char): Option<Scan> {
    if st.inString then
      if st.escaped then Some(st.(escaped := false))
      else if c == '\\' then Some(st.(escaped := true))
      else if c == '"' then Some(st.(inString := false))
      else Some(st)
    else if '0' <= c <= '9' then None
    else if c == '"' then Some(st.(inString := true))
    else if c == '{' || c == '['
        then (if st.depth + 1 > MAX_COMPONENT_DEPTH then None else Some(st.(depth := st.depth + 1)))
    else if c == '}' || c == ']' then (if st.depth == 0 then None else Some(st.(depth := st.depth - 1)))
    else Some(st)
  }

  function ScanFrom(st: Scan, s: string): Option<Scan>
    decreases |s|
  {
    if s == "" then Some(st)
    else match ScanChar(st, s[0]) case None => None case Some(next) => ScanFrom(next, s[1..])
  }

  predicate Bounded(raw: string) {
    H.Utf8Bytes(raw) <= MAX_COMPONENT_BYTES && ScanFrom(Scan(0, false, false), raw).Some?
  }

  /** The scan as the source runs it. Bytes of a character outside ASCII change nothing it looks at,
      so characters do for bytes. */
  method BoundedJson(raw: string) returns (ok: bool)
    ensures ok <==> Bounded(raw)
  {
    if H.Utf8Bytes(raw) > MAX_COMPONENT_BYTES { return false; }
    var depth, inString, escaped := 0, false, false;
    assert raw[0..] == raw;
    for i := 0 to |raw|
      invariant 0 <= depth
      invariant ScanFrom(Scan(0, false, false), raw) == ScanFrom(Scan(depth, inString, escaped), raw[i..])
    {
      var c := raw[i];
      assert raw[i..][0] == c && raw[i..][1..] == raw[i + 1..];
      if inString {
        if escaped {
          escaped := false;
        } else if c == '\\' {
          escaped := true;
        } else if c == '"' {
          inString := false;
        }
      } else if '0' <= c <= '9' {
        return false;
      } else if c == '"' {
        inString := true;
      } else if c == '{' || c == '[' {
        depth := depth + 1;
        if depth > MAX_COMPONENT_DEPTH { return false; }
      } else if c == '}' || c == ']' {
        if depth == 0 { return false; }
        depth := depth - 1;
      }
    }
    return true;
  }

  // ---------------------------------------------------------------- the envelope

  function Get(fields: map<string, Value>, name: string): Option<Value> {
    if name in fields then Some(fields[name]) else None
  }

  predicate ValidText(s: string) { H.Utf8Bytes(s) <= MAX_STRING && '\0' !in s }

  function TextOf(v: Option<Value>): Option<string> {
    if v.Some? && v.value.Text? && ValidText(v.value.text) then Some(v.value.text) else None
  }

  /** The bare text of a field, whatever its length. */
  function Word(v: Option<Value>): Option<string> { if v.Some? && v.value.Text? then Some(v.value.text) else None }

  function ParseAll<T>(items: seq<Value>, parse: Value -> Option<T>): (r: Option<seq<T>>)
    ensures r.Some? ==> |r.value| == |items| && forall i | 0 <= i < |items| :: parse(items[i]) == Some(r.value[i])
    ensures (forall i | 0 <= i < |items| :: parse(items[i]).Some?) ==> r.Some?
  {
    if items == [] then Some([])
    else
      var head, tail := parse(items[0]), ParseAll(items[1..], parse);
      if head.None? || tail.None? then None else Some([head.value] + tail.value)
  }

  function ParseList<T>(v: Option<Value>, parse: Value -> Option<T>): Option<seq<T>> {
    if v.None? || !v.value.List? || |v.value.items| > MAX_BLOCKS then None else ParseAll(v.value.items, parse)
  }

  function ParseAction(href: Policy, v: Value): Option<Action> {
    if !v.Object? || |v.fields| != 2 then None
    else
      var caption, link := TextOf(Get(v.fields, "label")), TextOf(Get(v.fields, "href"));
      if caption.None? || link.None? || !href(link.value) then None else Some(Action(caption.value, link.value))
  }

  function IconName(i: Icon): string {
    match i case Envelope => "envelope" case Calendar => "calendar" case Globe => "globe" case Sparkle => "sparkle"
  }

  function ParseIcon(word: Option<string>): Option<Icon> {
    if word == Some("envelope") then Some(Envelope)
    else if word == Some("calendar") then Some(Calendar)
    else if word == Some("globe") then Some(Globe)
    else if word == Some("sparkle") then Some(Sparkle)
    else None
  }

  function ToneName(t: Tone): string { match t case Info => "info" case Warn => "warn" case Success => "success" }

  function ParseTone(word: Option<string>): Option<Tone> {
    if word == Some("info") then Some(Info)
    else if word == Some("warn") then Some(Warn)
    else if word == Some("success") then Some(Success)
    else None
  }

  function ParseListItem(v: Value): Option<ListItem> {
    if !v.Object? || |v.fields| != 3 then None
    else
      var title, detail := TextOf(Get(v.fields, "title")), TextOf(Get(v.fields, "detail"));
      var icon := ParseIcon(Word(Get(v.fields, "icon")));
      if title.None? || detail.None? || icon.None? then None else Some(ListItem(title.value, detail.value, icon.value))
  }

  function ParseRow(v: Value): Option<KvRow> {
    if !v.Object? || |v.fields| != 2 then None
    else
      var caption, value := TextOf(Get(v.fields, "label")), TextOf(Get(v.fields, "value"));
      if caption.None? || value.None? then None else Some(KvRow(caption.value, value.value))
  }

  function ParseCard(href: Policy, fields: map<string, Value>): Option<Block> {
    var title, body := TextOf(Get(fields, "title")), TextOf(Get(fields, "body"));
    var actions := if "actions" in fields then ParseList(Get(fields, "actions"), v => ParseAction(href, v))
        else Some([]);
    if title.None? || body.None? || actions.None? || |fields| != (if "actions" in fields then 4 else 3) then None
    else Some(Card(title.value, body.value, actions.value))
  }

  function ParseBlock(href: Policy, v: Value): Option<Block> {
    if !v.Object? then None
    else
      var fields := v.fields;
      var kind := Word(Get(fields, "type"));
      if kind == Some("markdown") then
        var text := TextOf(Get(fields, "text"));
        if |fields| != 2 || text.None? then None else Some(Markdown(text.value))
      else if kind == Some("card") then ParseCard(href, fields)
      else if kind == Some("list") then
        var items := ParseList(Get(fields, "items"), ParseListItem);
        if |fields| != 2 || items.None? then None else Some(ListBlock(items.value))
      else if kind == Some("kv") then
        var rows := ParseList(Get(fields, "rows"), ParseRow);
        if |fields| != 2 || rows.None? then None else Some(Kv(rows.value))
      else if kind == Some("callout") then
        var tone, text := ParseTone(Word(Get(fields, "tone"))), TextOf(Get(fields, "text"));
        if |fields| != 3 || tone.None? || text.None? then None else Some(Callout(tone.value, text.value))
      else None
  }

  function ParseValue(href: Policy, v: Value): Option<seq<Block>> {
    if !v.Object? || |v.fields| != 2 || Word(Get(v.fields, "kind")) != Some("components") then None
    else ParseList(Get(v.fields, "blocks"), b => ParseBlock(href, b))
  }

  function ParseEnvelope(href: Policy, raw: string): Option<seq<Block>> {
    if !Bounded(raw) then None
    else match Parse(raw) case None => None case Some(v) => ParseValue(href, v)
  }

  function Validate(href: Policy, raw: string): Validated {
    match ParseEnvelope(href, raw) case None => Fallback case Some(blocks) => Components(blocks)
  }

  // ---------------------------------------------------------------- the canonical form

  function DocsOf<T>(items: seq<T>, doc: T -> Doc): (r: seq<Doc>)
    ensures |r| == |items| && forall i | 0 <= i < |r| :: r[i] == doc(items[i])
  {
    if items == [] then [] else [doc(items[0])] + DocsOf(items[1..], doc)
  }

  function ActionDoc(a: Action): Doc { Obj([Field("href", Str(a.href)), Field("label", Str(a.caption))]) }

  function ItemDoc(i: ListItem): Doc {
    Obj([Field("detail", Str(i.detail)), Field("icon", Str(IconName(i.icon))), Field("title", Str(i.title))])
  }

  function RowDoc(r: KvRow): Doc { Obj([Field("label", Str(r.caption)), Field("value", Str(r.value))]) }

  /** Fields in the printer's order, which is that of their names. */
  function BlockDoc(b: Block): Doc {
    match b
    case Markdown(text) => Obj([Field("text", Str(text)), Field("type", Str("markdown"))])
    case Card(title, body, actions) =>
      Obj([Field("actions", Arr(DocsOf(actions, ActionDoc))), Field("body", Str(body)), Field("title", Str(title)),
           Field("type", Str("card"))])
    case ListBlock(items) => Obj([Field("items", Arr(DocsOf(items, ItemDoc))), Field("type", Str("list"))])
    case Kv(rows) => Obj([Field("rows", Arr(DocsOf(rows, RowDoc))), Field("type", Str("kv"))])
    case Callout(tone, text) =>
        Obj([Field("text", Str(text)), Field("tone", Str(ToneName(tone))), Field("type", Str("callout"))])
  }

  function EnvelopeDoc(blocks: seq<Block>): Doc {
    Obj([Field("blocks", Arr(DocsOf(blocks, BlockDoc))), Field("kind", Str("components"))])
  }

  predicate OccursAt(s: string, needle: string, i: nat) { i + |needle| <= |s| && s[i..i + |needle|] == needle }

  predicate Contains(s: string, needle: string) { exists i: nat | i <= |s| :: OccursAt(s, needle, i) }

  predicate DocContains(d: Doc, needle: string) {
    match d
    case Str(text) => Contains(text, needle)
    case Arr(items) => exists i | 0 <= i < |items| :: DocContains(items[i], needle)
    case Obj(fields) => exists i | 0 <= i < |fields| ::
        Contains(fields[i].name, needle) || DocContains(fields[i].value, needle)
  }

  /** The text with every escape, wherever it stands, replaced by its character. */
  function Unescape(s: string): string
    decreases |s|
  {
    if s == "" then ""
    else match Escape(s)
      case Some((c, n)) => [c] + Unescape(s[n..])
      case None => [s[0]] + Unescape(s[1..])
  }

  lemma UnescapeOne(s: string)
    ensures s == "" ==> Unescape(s) == ""
    ensures s != "" && Escape(s).Some? ==> Unescape(s) == [Escape(s).value.0] + Unescape(s[Escape(s).value.1..])
    ensures s != "" && Escape(s).None? ==> Unescape(s) == [s[0]] + Unescape(s[1..])
  {
    hide Escape;
  }

  method EscapedContains(raw: string, needle: string) returns (found: bool)
    ensures found <==> Contains(Unescape(raw), needle)
  {
    hide Escape, Contains, Unescape;
    var decoded, index := "", 0;
    assert raw[0..] == raw;
    while index < |raw|
      invariant 0 <= index <= |raw| && Unescape(raw) == decoded + Unescape(raw[index..])
      decreases |raw| - index
    {
      match Escape(raw[index..]) {
        case Some((c, consumed)) =>
          UnescapeOne(raw[index..]);
          assert raw[index..][consumed..] == raw[index + consumed..];
          decoded, index := decoded + [c], index + consumed;
        case None =>
          UnescapeOne(raw[index..]);
          assert raw[index..][1..] == raw[index + 1..];
          decoded, index := decoded + [raw[index]], index + 1;
      }
    }
    UnescapeOne("");
    assert raw[index..] == "" && decoded + "" == decoded;
    found := Contains(decoded, needle);
  }

  predicate Refused(raw: string, forbidden: Option<string>) {
    forbidden.Some? && forbidden.value != ""
    && (H.Utf8Bytes(raw) > MAX_COMPONENT_BYTES || Contains(Unescape(raw), forbidden.value))
  }

  function CanonicalReply(href: Policy, raw: string, forbidden: Option<string>): Option<string> {
    if Refused(raw, forbidden) then None
    else match Validate(href, raw)
      case Fallback => Some(raw)
      case Components(blocks) =>
        var doc := EnvelopeDoc(blocks);
        if forbidden.Some? && forbidden.value != "" && DocContains(doc, forbidden.value) then None
        else Some(if H.Utf8Bytes(Print(doc)) <= MAX_COMPONENT_BYTES then Print(doc) else raw)
  }
}
