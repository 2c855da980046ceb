/** The JSON that replies are made of (RFC 8259, without numbers, which the bounding scan never lets
    through): reading with escapes and repeated keys, and the compact printer. */
module Json {
  import opened Wrappers

  datatype Value =
    | Null
    | Bool(b: bool)
    | Text(text: string)
    | List(items: seq<Value>)
    | Object(fields: map<string, Value>)

  // ---------------------------------------------------------------- escapes

  function HexDigit(c: char): Option<nat> {
    if '0' <= c <= '9' then Some((c - '0') as nat)
    else if 'a' <= c <= 'f' then Some((c - 'a') as nat + 10)
    else if 'A' <= c <= 'F' then Some((c - 'A') as nat + 10)
    else None
  }

  function HexQuad(s: string): (r: Option<nat>)
    requires |s| == 4
    ensures r.Some? ==> r.value < 0x10000
  {
    var a, b, c, d := HexDigit(s[0]), HexDigit(s[1]), HexDigit(s[2]), HexDigit(s[3]);
    if a.None? || b.None? || c.None? || d.None? then None
    else if a.value >= 16 || b.value >= 16 || c.value >= 16 || d.value >= 16 then None
    else Some(((a.value * 16 + b.value) * 16 + c.value) * 16 + d.value)
  }

  predicate IsScalar(n: nat) { n < 0xD800 || 0xE000 <= n < 0x110000 }

  function Simple(c: char): Option<char> {
    match c
    case '"' => Some('"')
    case '\\' => Some('\\')
    case '/' => Some('/')
    case 'b' => Some('\U{8}')
    case 'f' => Some('\U{c}')
    case 'n' => Some('\n')
    case 'r' => Some('\r')
    case 't' => Some('\t')
    case _ => None
  }

  /** One escape at the front: the character and the length of its escape. Half a surrogate pair is no
      character. */
  function Escape(s: string): (r: Option<(char, nat)>)
    ensures r.Some? ==> 2 <= r.value.1 <= |s|
  {
    if |s| < 2 || s[0] != '\\' then None
    else if s[1] != 'u' then (match Simple(s[1]) case None => None case Some(c) => Some((c, 2)))
    else if |s| < 6 then None
    else match HexQuad(s[2..6])
      case None => None
      case Some(high) =>
        if 0xD800 <= high <= 0xDBFF then
          if |s| < 12 || s[6] != '\\' || s[7] != 'u' then None
          else (match HexQuad(s[8..12])
            case None => None
            case Some(low) =>
              if 0xDC00 <= low <= 0xDFFF then
                Some(((0x10000 + (high - 0xD800) * 0x400 + (low - 0xDC00)) as char, 12))
              else None)
        else if IsScalar(high) then Some((high as char, 6))
        else None
  }

  // ---------------------------------------------------------------- reading

  predicate Blank(c: char) { c == ' ' || c == '\n' || c == '\t' || c == '\r' }

  function SkipBlanks(s: string): (r: string)
    ensures |r| <= |s|
  {
    if s != "" && Blank(s[0]) then SkipBlanks(s[1..]) else s
  }

  /** The rest of a string after its opening quote. */
  function ReadString(s: string): (r: Option<(string, string)>)
    ensures r.Some? ==> |r.value.1| < |s|
    decreases |s|
  {
    if s == "" then None
    else if s[0] == '"' then Some(("", s[1..]))
    else if s[0] == '\\' then
      match Escape(s)
      case None => None
      case Some((c, n)) =>
        (match ReadString(s[n..]) case None => None case Some((text, rest)) => Some(([c] + text, rest)))
    else if s[0] < ' ' then None
    else match ReadString(s[1..]) case None => None case Some((text, rest)) => Some(([s[0]] + text, rest))
  }

  predicate StartsWith(s: string, word: string) { |word| <= |s| && s[..|word|] == word }

  /** Fields in the order written; the last of a repeated name stands. */
  function Collect(fields: seq<(string, Value)>): map<string, Value> {
    if fields == [] then map[] else Collect(fields[..|fields| - 1])[fields[|fields| - 1].0 := fields[|fields| - 1].1]
  }

  function ReadValue(s: string): (r: Option<(Value, string)>)
    ensures r.Some? ==> |r.value.1| < |s|
    decreases |s|, 1
  {
    var t := SkipBlanks(s);
    if t == "" then None
    else if t[0] == '"' then
      (match ReadString(t[1..]) case None => None case Some((text, rest)) => Some((Text(text), rest)))
    else if t[0] == '[' then
      var u := SkipBlanks(t[1..]);
      if u != "" && u[0] == ']' then Some((List([]), u[1..]))
      else match ReadItems(u) case None => None case Some((items, rest)) => Some((List(items), rest))
    else if t[0] == '{' then
      var u := SkipBlanks(t[1..]);
      if u != "" && u[0] == '}' then Some((Object(map[]), u[1..]))
      else match ReadFields(u) case None => None case Some((fields, rest)) => Some((Object(Collect(fields)), rest))
    else if StartsWith(t, "null") then Some((Null, t[4..]))
    else if StartsWith(t, "true") then Some((Bool(true), t[4..]))
    else if StartsWith(t, "false") then Some((Bool(false), t[5..]))
    else None
  }

  function ReadItems(s: string): (r: Option<(seq<Value>, string)>)
    ensures r.Some? ==> |r.value.1| < |s|
    decreases |s|, 2
  {
    match ReadValue(s)
    case None => None
    case Some((value, more)) =>
      var t := SkipBlanks(more);
      if t != "" && t[0] == ']' then Some(([value], t[1..]))
      else if t != "" && t[0] == ',' then
        (match ReadItems(t[1..]) case None => None case Some((items, rest)) => Some(([value] + items, rest)))
      else None
  }

  function ReadFields(s: string): (r: Option<(seq<(string, Value)>, string)>)
    ensures r.Some? ==> |r.value.1| < |s|
    decreases |s|, 2
  {
    var t := SkipBlanks(s);
    if t == "" || t[0] != '"' then None
    else match ReadString(t[1..])
      case None => None
      case Some((name, after)) =>
        var u := SkipBlanks(after);
        if u == "" || u[0] != ':' then None
        else match ReadValue(u[1..])
          case None => None
          case Some((value, more)) =>
            var v := SkipBlanks(more);
            if v != "" && v[0] == '}' then Some(([(name, value)], v[1..]))
            else if v != "" && v[0] == ',' then
              (match ReadFields(v[1..])
              case None => None
              case Some((fields, rest)) => Some(([(name, value)] + fields, rest)))
            else None
  }

  function Parse(s: string): Option<Value> {
    match ReadValue(s)
    case None => None
    case Some((value, rest)) => if SkipBlanks(rest) == "" then Some(value) else None
  }

  // ---------------------------------------------------------------- printing

  datatype Field = Field(name: string, value: Doc)

  /** What is printed: fields in the order they are to appear. */
  datatype Doc = Str(text: string) | Arr(items: seq<Doc>) | Obj(fields: seq<Field>)

  function Hex(n: nat): char
    requires n < 16
  {
    "0123456789abcdef"[n]
  }

  function EscapeChar(c: char): string {
    match c
    case '"' => "\\\""
    case '\\' => "\\\\"
    case '\U{8}' => "\\b"
    case '\U{c}' => "\\f"
    case '\n' => "\\n"
    case '\r' => "\\r"
    case '\t' => "\\t"
    case _ => if c < ' ' then "\\u00" + [Hex(c as nat / 16), Hex(c as nat % 16)] else [c]
  }

  function EscapeText(s: string): string { if s == "" then "" else EscapeChar(s[0]) + EscapeText(s[1..]) }

  function Quote(s: string): string { "\"" + EscapeText(s) + "\"" }

  function Print(d: Doc): string {
    match d
    case Str(text) => Quote(text)
    case Arr(items) => "[" + PrintItems(items) + "]"
    case Obj(fields) => "{" + PrintFields(fields) + "}"
  }

  function PrintItems(items: seq<Doc>): string {
    if items == [] then "" else if |items| == 1 then Print(items[0]) else Print(items[0]) + "," + PrintItems(items[1..])
  }

  function PrintFields(fields: seq<Field>): string {
    if fields == [] then ""
    else
      var head := Quote(fields[0].name) + ":" + Print(fields[0].value);
      if |fields| == 1 then head else head + "," + PrintFields(fields[1..])
  }

  /** The value a document stands for. */
  function Denote(d: Doc): Value {
    match d
    case Str(text) => Text(text)
    case Arr(items) => List(DenoteItems(items))
    case Obj(fields) => Object(Collect(DenoteFields(fields)))
  }

  function DenoteItems(items: seq<Doc>): (r: seq<Value>)
    ensures |r| == |items|
  {
    if items == [] then [] else [Denote(items[0])] + DenoteItems(items[1..])
  }

  function DenoteFields(fields: seq<Field>): (r: seq<(string, Value)>)
    ensures |r| == |fields|
  {
    if fields == [] then [] else [(fields[0].name, Denote(fields[0].value))] + DenoteFields(fields[1..])
  }
}
