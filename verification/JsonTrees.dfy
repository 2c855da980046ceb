/** The grammar of whole values: syntax trees with every blank and every spelling in them, and that the
    reader takes exactly their texts, for exactly what they mean. */
module JsonTrees {
  import opened Wrappers
  import opened Json
  import opened JsonGrammar

  /** A value as it is written. */
  datatype Tree =
    | Named(name: string)
    | Quoted(spelled: string, text: string)
    | Listed(gap: string, items: seq<Item>)
    | Record(gap: string, members: seq<Member>)

  datatype Item = Item(before: string, value: Tree, after: string)

  datatype Member = Member(before: string, spelled: string, name: string, colon: string, gap: string, value: Tree,
                           after: string)

  ghost predicate Blanks(s: string) {
    forall i | 0 <= i < |s| :: s[i] == ' ' || s[i] == '\t' || s[i] == '\n' || s[i] == '\r'
  }

  ghost predicate Proper(t: Tree) {
    match t
    case Named(name) => name == "null" || name == "true" || name == "false"
    case Quoted(spelled, text) => TextFor(spelled, text)
    case Listed(gap, items) => Blanks(gap) && forall i | 0 <= i < |items| :: ProperItem(items[i])
    case Record(gap, members) => Blanks(gap) && forall i | 0 <= i < |members| :: ProperMember(members[i])
  }

  ghost predicate ProperItem(i: Item) { Blanks(i.before) && Proper(i.value) && Blanks(i.after) }

  ghost predicate ProperMember(m: Member) {
    Blanks(m.before) && TextFor(m.spelled, m.name) && Blanks(m.colon) && Blanks(m.gap) && Proper(m.value)
        && Blanks(m.after)
  }

  function Written(t: Tree): string {
    match t
    case Named(name) => name
    case Quoted(spelled, _) => "\"" + spelled + "\""
    case Listed(gap, items) => "[" + (if items == [] then gap else WrittenItems(items)) + "]"
    case Record(gap, members) => "{" + (if members == [] then gap else WrittenMembers(members)) + "}"
  }

  function WrittenItems(items: seq<Item>): string {
    if items == [] then ""
    else
      var head := items[0].before + Written(items[0].value) + items[0].after;
      if |items| == 1 then head else head + "," + WrittenItems(items[1..])
  }

  /** A name in its quotes, the colon, and what follows. */
  function Line(before: string, spelled: string, colon: string, tail: string): string {
    before + "\"" + (spelled + "\"" + (colon + ":" + tail))
  }

  function WrittenMembers(members: seq<Member>): string {
    if members == [] then ""
    else
      var m := members[0];
      var head := Line(m.before, m.spelled, m.colon, m.gap + Written(m.value) + m.after);
      if |members| == 1 then head else head + "," + WrittenMembers(members[1..])
  }

  function Means(t: Tree): Value {
    match t
    case Named(name) => if name == "null" then Null else Bool(name == "true")
    case Quoted(_, text) => Text(text)
    case Listed(_, items) => List(MeansItems(items))
    case Record(_, members) => Object(Collect(MeansMembers(members)))
  }

  function MeansItems(items: seq<Item>): (r: seq<Value>)
    ensures |r| == |items|
  {
    if items == [] then [] else [Means(items[0].value)] + MeansItems(items[1..])
  }

  function MeansMembers(members: seq<Member>): (r: seq<(string, Value)>)
    ensures |r| == |members|
  {
    if members == [] then [] else [(members[0].name, Means(members[0].value))] + MeansMembers(members[1..])
  }

  /** Of a name that is written more than once the last value stands. */
  lemma {:induction false} CollectExactly(fields: seq<(string, Value)>, name: string)
    ensures name in Collect(fields) <==> exists i | 0 <= i < |fields| :: fields[i].0 == name
    ensures forall i | 0 <= i < |fields| && fields[i].0 == name
            && (forall j | i < j < |fields| :: fields[j].0 != name) ::
              name in Collect(fields) && Collect(fields)[name] == fields[i].1
    decreases |fields|
  {
    if fields != [] {
      var n := |fields| - 1;
      CollectExactly(fields[..n], name);
      assert forall i | 0 <= i < n :: fields[..n][i] == fields[i];
    }
  }

  // ---------------------------------------------------------------- blanks

  lemma {:induction false} BlanksSkipped(gap: string, s: string)
    requires Blanks(gap)
    ensures SkipBlanks(gap + s) == SkipBlanks(s)
    decreases |gap|
  {
    if gap == "" {
      assert gap + s == s;
    } else {
      assert (gap + s)[1..] == gap[1..] + s && (gap + s)[0] == gap[0];
      BlanksSkipped(gap[1..], s);
    }
  }

  lemma {:induction false} SkippedBlanks(s: string) returns (gap: string)
    ensures Blanks(gap) && s == gap + SkipBlanks(s)
    ensures SkipBlanks(SkipBlanks(s)) == SkipBlanks(s)
  {
    if s != "" && Blank(s[0]) {
      var more := SkippedBlanks(s[1..]);
      gap := [s[0]] + more;
      assert s == [s[0]] + s[1..];
    } else {
      gap := "";
    }
  }

  lemma NoBlank(s: string)
    requires s == "" || !Blank(s[0])
    ensures SkipBlanks(s) == s
  {}

  lemma ReadSkips(s: string)
    ensures ReadValue(SkipBlanks(s)) == ReadValue(s) && ReadItems(SkipBlanks(s)) == ReadItems(s)
    ensures ReadFields(SkipBlanks(s)) == ReadFields(s)
  {
    var gap := SkippedBlanks(s);
    ValueSkips(s, SkipBlanks(s));
    hide SkipBlanks, ReadValue;
  }

  lemma ValueSkips(s: string, t: string)
    requires SkipBlanks(s) == SkipBlanks(t)
    ensures ReadValue(s) == ReadValue(t)
  {
    hide SkipBlanks, ReadItems, ReadFields, ReadString;
  }

  // ---------------------------------------------------------------- every tree is read

  /** What a list, an object, an item and a field are read as, one step at a time. */
  lemma ListRead(u: string)
    ensures var w := SkipBlanks(u);
            ReadValue("[" + u) ==
              if w != "" && w[0] == ']' then Some((List([]), w[1..]))
              else match ReadItems(u) case None => None case Some(p) => Some((List(p.0), p.1))
  {
    var s := "[" + u;
    assert s[0] == '[' && s[1..] == u;
    NoBlank(s);
    ReadSkips(u);
    hide SkipBlanks, ReadItems, ReadFields, ReadString;
  }

  lemma RecordRead(u: string)
    ensures var w := SkipBlanks(u);
            ReadValue("{" + u) ==
              if w != "" && w[0] == '}' then Some((Object(map[]), w[1..]))
              else match ReadFields(u) case None => None case Some(p) => Some((Object(Collect(p.0)), p.1))
  {
    var s := "{" + u;
    assert s[0] == '{' && s[1..] == u;
    NoBlank(s);
    ReadSkips(u);
    hide SkipBlanks, ReadItems, ReadFields, ReadString, Collect;
  }

  lemma WrittenStart(t: Tree)
    requires Proper(t)
    ensures var s := Written(t); s != "" && !Blank(s[0]) && s[0] != ']' && s[0] != '}'
  {
    hide TextFor, WrittenItems, WrittenMembers;
  }

  lemma NamedReads(name: string, rest: string)
    requires Proper(Named(name))
    ensures ReadValue(name + rest) == Some((Means(Named(name)), rest))
  {
    var s := name + rest;
    assert s[..|name|] == name && s[|name|..] == rest && s[0] == name[0];
    NoBlank(s);
    if name == "true" { assert s[0] == 't' && "null"[0] == 'n'; }
    if name == "false" { assert s[0] == 'f' && "null"[0] == 'n' && "true"[0] == 't'; }
    hide SkipBlanks, ReadItems, ReadFields, ReadString;
  }

  lemma QuotedReads(spelled: string, text: string, rest: string)
    requires TextFor(spelled, text)
    ensures ReadValue("\"" + spelled + "\"" + rest) == Some((Text(text), rest))
  {
    var s := "\"" + spelled + "\"" + rest;
    assert s[0] == '"' && s[1..] == spelled + "\"" + rest;
    NoBlank(s);
    ReadSpelled(spelled, text, rest);
    hide SkipBlanks, ReadItems, ReadFields, ReadString, TextFor;
  }

  /** Whatever is written by the grammar is read as what it means, behind any blanks and whatever follows. */
  lemma {:induction false} TreeReads(gap: string, t: Tree, rest: string)
    requires Blanks(gap) && Proper(t)
    ensures ReadValue(gap + Written(t) + rest) == Some((Means(t), rest))
    decreases t, 1
  {
    hide ReadValue, ReadItems, ReadFields, TextFor, WrittenItems, WrittenMembers, MeansItems, MeansMembers, SkipBlanks,
        Collect;
    var s := Written(t) + rest;
    assert gap + Written(t) + rest == gap + s;
    BlanksSkipped(gap, s);
    ValueSkips(gap + s, s);
    match t {
      case Named(name) => NamedReads(name, rest);
      case Quoted(spelled, text) => QuotedReads(spelled, text, rest);
      case Listed(inner, items) =>
        if items == [] {
          EmptyReads(inner, rest);
          assert s == "[" + (inner + "]" + rest);
        } else {
          var u := WrittenItems(items) + "]" + rest;
          assert s == "[" + u;
          ItemsRead(items, rest);
          ItemsOpen(items, "]" + rest);
          assert u == WrittenItems(items) + ("]" + rest);
          ListRead(u);
        }
      case Record(inner, members) =>
        if members == [] {
          EmptyReads(inner, rest);
          assert s == "{" + (inner + "}" + rest);
        } else {
          var u := WrittenMembers(members) + "}" + rest;
          assert s == "{" + u;
          MembersRead(members, rest);
          MembersOpen(members, "}" + rest);
          assert u == WrittenMembers(members) + ("}" + rest);
          RecordRead(u);
        }
    }
  }

  lemma EmptyReads(gap: string, rest: string)
    requires Blanks(gap)
    ensures ReadValue("[" + (gap + "]" + rest)) == Some((List([]), rest))
    ensures ReadValue("{" + (gap + "}" + rest)) == Some((Object(map[]), rest))
    ensures MeansItems([]) == [] && Collect(MeansMembers([])) == map[]
  {
    hide ReadValue, ReadItems, ReadFields;
    ListRead(gap + "]" + rest);
    RecordRead(gap + "}" + rest);
    assert gap + "]" + rest == gap + ("]" + rest) && gap + "}" + rest == gap + ("}" + rest);
    BlanksSkipped(gap, "]" + rest);
    BlanksSkipped(gap, "}" + rest);
    NoBlank("]" + rest);
    NoBlank("}" + rest);
    assert ("]" + rest)[1..] == rest && ("}" + rest)[1..] == rest;
    hide SkipBlanks;
  }

  /** A list of items does not begin like an empty one. */
  lemma ItemsOpen(items: seq<Item>, rest: string)
    requires items != [] && ProperItem(items[0])
    ensures var w := SkipBlanks(WrittenItems(items) + rest); w != "" && w[0] != ']'
  {
    var i := items[0];
    var more := i.after + (if |items| == 1 then "" else "," + WrittenItems(items[1..])) + rest;
    assert WrittenItems(items) + rest == i.before + (Written(i.value) + more);
    BlanksSkipped(i.before, Written(i.value) + more);
    WrittenStart(i.value);
    NoBlank(Written(i.value) + more);
    hide Written, WrittenItems, SkipBlanks;
  }

  lemma QuoteOpens(before: string, more: string)
    requires Blanks(before)
    ensures var w := SkipBlanks(before + "\"" + more); w == "\"" + more
  {
    assert before + "\"" + more == before + ("\"" + more);
    BlanksSkipped(before, "\"" + more);
    NoBlank("\"" + more);
  }

  lemma LineAppend(before: string, spelled: string, colon: string, tail: string, more: string)
    ensures Line(before, spelled, colon, tail) + more == Line(before, spelled, colon, tail + more)
  {
    assert (colon + ":" + tail) + more == colon + ":" + (tail + more);
    assert (spelled + "\"" + (colon + ":" + tail)) + more == spelled + "\"" + ((colon + ":" + tail) + more);
  }

  /** Members, whatever follows, begin with the line of the first. */
  lemma FirstLine(members: seq<Member>, next: string) returns (tail: string)
    requires members != []
    ensures var m := members[0];
            && tail == m.gap + Written(m.value) + m.after + (if |members| == 1 then next
                                                             else "," + WrittenMembers(members[1..]) + next)
            && WrittenMembers(members) + next == Line(m.before, m.spelled, m.colon, tail)
  {
    var m := members[0];
    MembersForm(members);
    hide Written, WrittenMembers, MeansMembers, Means, Line;
    var own := m.gap + Written(m.value) + m.after;
    var more := if |members| == 1 then next else "," + WrittenMembers(members[1..]) + next;
    LineAppend(m.before, m.spelled, m.colon, own, more);
    tail := own + more;
    var head := Line(m.before, m.spelled, m.colon, own);
    if |members| > 1 { assert head + "," + WrittenMembers(members[1..]) + next == head + more; }
  }

  lemma MembersOpen(members: seq<Member>, rest: string)
    requires members != [] && ProperMember(members[0])
    ensures var w := SkipBlanks(WrittenMembers(members) + rest); w != "" && w[0] != '}'
  {
    var tail := FirstLine(members, rest);
    var m := members[0];
    QuoteOpens(m.before, m.spelled + "\"" + (m.colon + ":" + tail));
    hide Written, WrittenMembers, SkipBlanks, TextFor, Proper;
  }

  lemma ItemsStep(s: string, value: Value, after: string, next: string)
    requires ReadValue(s) == Some((value, after + next)) && Blanks(after) && next != "" && !Blank(next[0])
    ensures next[0] == ']' ==> ReadItems(s) == Some(([value], next[1..]))
    ensures next[0] == ',' && ReadItems(next[1..]).Some? ==>
              ReadItems(s) == Some(([value] + ReadItems(next[1..]).value.0, ReadItems(next[1..]).value.1))
  {
    BlanksSkipped(after, next);
    NoBlank(next);
    hide SkipBlanks, ReadValue;
  }

  lemma {:induction false} ItemsRead(items: seq<Item>, rest: string)
    requires items != [] && forall i | 0 <= i < |items| :: ProperItem(items[i])
    ensures ReadItems(WrittenItems(items) + "]" + rest) == Some((MeansItems(items), rest))
    decreases items, 2
  {
    hide ReadValue, ReadItems, Written, WrittenItems, MeansItems, Means, Proper, SkipBlanks;
    var i, tail := items[0], items[1..];
    ItemsForm(items);
    var next := if |items| == 1 then "]" + rest else "," + (WrittenItems(tail) + "]" + rest);
    var s := WrittenItems(items) + "]" + rest;
    assert s == i.before + Written(i.value) + (i.after + next);
    TreeReads(i.before, i.value, i.after + next);
    ItemsStep(s, Means(i.value), i.after, next);
    if |items| == 1 {
      assert next[1..] == rest && tail == [];
      NoItems();
      assert MeansItems(items) == [Means(i.value)];
    } else {
      assert next[1..] == WrittenItems(tail) + "]" + rest;
      assert forall k | 0 <= k < |tail| :: tail[k] == items[k + 1];
      ItemsRead(tail, rest);
    }
  }

  lemma NoItems()
    ensures MeansItems([]) == [] && MeansMembers([]) == []
  {}

  lemma ItemsForm(items: seq<Item>)
    requires items != []
    ensures var head := items[0].before + Written(items[0].value) + items[0].after;
            WrittenItems(items) == if |items| == 1 then head else head + "," + WrittenItems(items[1..])
    ensures MeansItems(items) == [Means(items[0].value)] + MeansItems(items[1..])
  {}

  lemma MembersForm(members: seq<Member>)
    requires members != []
    ensures var m := members[0];
            var head := Line(m.before, m.spelled, m.colon, m.gap + Written(m.value) + m.after);
            WrittenMembers(members) == if |members| == 1 then head else head + "," + WrittenMembers(members[1..])
    ensures MeansMembers(members) == [(members[0].name, Means(members[0].value))] + MeansMembers(members[1..])
  {}

  lemma FieldsOf(s: string, name: string, after: string, tail: string, value: Value, more: string, next: string)
    requires var t := SkipBlanks(s); t != "" && t[0] == '"' && ReadString(t[1..]) == Some((name, after))
    requires SkipBlanks(after) == ":" + tail && ReadValue(tail) == Some((value, more)) && SkipBlanks(more) == next
             && next != ""
    ensures next[0] == '}' ==> ReadFields(s) == Some(([(name, value)], next[1..]))
    ensures next[0] == ',' && ReadFields(next[1..]).Some? ==>
              ReadFields(s) == Some(([(name, value)] + ReadFields(next[1..]).value.0, ReadFields(next[1..]).value.1))
  {
    assert (":" + tail)[1..] == tail;
    hide SkipBlanks, ReadValue, ReadString;
  }

  lemma FieldsStep(before: string, spelled: string, name: string, colon: string, tail: string, value: Value,
                   after: string, next: string)
    requires Blanks(before) && TextFor(spelled, name) && Blanks(colon) && Blanks(after) && next != "" && !Blank(next[0])
    requires ReadValue(tail) == Some((value, after + next))
    ensures var s := Line(before, spelled, colon, tail);
            && (next[0] == '}' ==> ReadFields(s) == Some(([(name, value)], next[1..])))
            && (next[0] == ',' && ReadFields(next[1..]).Some? ==>
                  ReadFields(s) == Some(([(name, value)] + ReadFields(next[1..]).value.0,
                                         ReadFields(next[1..]).value.1)))
  {
    hide SkipBlanks, ReadValue, ReadString, ReadFields, TextFor, Blanks;
    var s, u := Line(before, spelled, colon, tail), colon + ":" + tail;
    QuoteOpens(before, spelled + "\"" + u);
    ReadSpelled(spelled, name, u);
    assert ("\"" + (spelled + "\"" + u))[1..] == spelled + "\"" + u;
    ColonOpens(colon, tail);
    BlanksSkipped(after, next);
    NoBlank(next);
    FieldsOf(s, name, u, tail, value, after + next, next);
  }

  lemma ColonOpens(colon: string, tail: string)
    requires Blanks(colon)
    ensures SkipBlanks(colon + ":" + tail) == ":" + tail
  {
    assert colon + ":" + tail == colon + (":" + tail);
    BlanksSkipped(colon, ":" + tail);
    NoBlank(":" + tail);
  }

  lemma {:induction false} MembersRead(members: seq<Member>, rest: string)
    requires members != [] && forall i | 0 <= i < |members| :: ProperMember(members[i])
    ensures ReadFields(WrittenMembers(members) + "}" + rest) == Some((MeansMembers(members), rest))
    decreases members, 2
  {
    hide ReadValue, ReadFields, Written, WrittenMembers, MeansMembers, Means, Proper, SkipBlanks, TextFor, Line;
    var m, more := members[0], members[1..];
    MembersForm(members);
    var next := if |members| == 1 then "}" + rest else "," + (WrittenMembers(more) + "}" + rest);
    var tail := m.gap + Written(m.value) + (m.after + next);
    var s := WrittenMembers(members) + "}" + rest;
    var line := FirstLine(members, "}" + rest);
    assert s == WrittenMembers(members) + ("}" + rest);
    assert line == m.gap + Written(m.value) + m.after + next == tail;
    TreeReads(m.gap, m.value, m.after + next);
    FieldsStep(m.before, m.spelled, m.name, m.colon, tail, Means(m.value), m.after, next);
    if |members| == 1 {
      assert next[1..] == rest && more == [];
      NoItems();
      assert MeansMembers(members) == [(m.name, Means(m.value))];
    } else {
      assert next[1..] == WrittenMembers(more) + "}" + rest;
      assert forall k | 0 <= k < |more| :: more[k] == members[k + 1];
      MembersRead(more, rest);
    }
  }

  // ---------------------------------------------------------------- and nothing else is

  /** The tree behind a value that was read, and the blanks before it. */
  lemma {:induction false} TreeOf(s: string) returns (gap: string, t: Tree)
    requires ReadValue(s).Some?
    ensures Blanks(gap) && Proper(t) && s == gap + Written(t) + ReadValue(s).value.1 && Means(t) == ReadValue(s).value.0
    decreases |s|, 1
  {
    hide TextFor, WrittenItems, WrittenMembers, MeansItems, MeansMembers, SkipBlanks, Collect;
    gap := SkippedBlanks(s);
    var u := SkipBlanks(s);
    ReadSkips(s);
    var rest := ReadValue(s).value.1;
    if u[0] == '"' {
      t := QuotedOf(u);
    } else if u[0] == '[' {
      t := ListedOf(u);
    } else if u[0] == '{' {
      t := RecordOf(u);
    } else {
      t := NamedOf(u);
    }
    hide ReadValue, Written, Means, Proper;
    assert s == gap + Written(t) + rest;
  }

  lemma NamedOf(u: string) returns (t: Tree)
    requires ReadValue(u).Some? && SkipBlanks(u) == u && u[0] != '"' && u[0] != '[' && u[0] != '{'
    ensures Proper(t) && u == Written(t) + ReadValue(u).value.1 && Means(t) == ReadValue(u).value.0
  {
    var rest := ReadValue(u).value.1;
    t := Named(u[..|u| - |rest|]);
    hide SkipBlanks, ReadItems, ReadFields, ReadString;
    assert u == u[..|u| - |rest|] + rest;
  }

  lemma QuotedOf(u: string) returns (t: Tree)
    requires ReadValue(u).Some? && SkipBlanks(u) == u && u[0] == '"'
    ensures Proper(t) && u == Written(t) + ReadValue(u).value.1 && Means(t) == ReadValue(u).value.0
  {
    hide SkipBlanks, ReadItems, ReadFields, ReadString, TextFor;
    var (text, rest) := ReadString(u[1..]).value;
    StringExactly(u[1..], text, rest);
    var spelled :| TextFor(spelled, text) && u[1..] == spelled + "\"" + rest;
    t := Quoted(spelled, text);
    assert u == "\"" + u[1..];
    assert u == Written(t) + rest;
  }

  lemma {:induction false} ListedOf(u: string) returns (t: Tree)
    requires ReadValue(u).Some? && SkipBlanks(u) == u && u[0] == '['
    ensures Proper(t) && u == Written(t) + ReadValue(u).value.1 && Means(t) == ReadValue(u).value.0
    decreases |u|, 0
  {
    hide ReadValue, ReadItems, SkipBlanks, WrittenItems, MeansItems, TextFor;
    var v, rest := u[1..], ReadValue(u).value.1;
    assert u == "[" + v;
    ListRead(v);
    var w := SkipBlanks(v);
    if w != "" && w[0] == ']' {
      var gap := SkippedBlanks(v);
      t := Listed(gap, []);
      NoItems();
      assert w == "]" + rest && u == Written(t) + rest;
    } else {
      var items := ItemsOf(v);
      t := Listed("", items);
      assert u == Written(t) + rest;
    }
  }

  lemma {:induction false} RecordOf(u: string) returns (t: Tree)
    requires ReadValue(u).Some? && SkipBlanks(u) == u && u[0] == '{'
    ensures Proper(t) && u == Written(t) + ReadValue(u).value.1 && Means(t) == ReadValue(u).value.0
    decreases |u|, 0
  {
    hide ReadValue, ReadFields, SkipBlanks, WrittenMembers, MeansMembers, TextFor, Collect;
    var v, rest := u[1..], ReadValue(u).value.1;
    assert u == "{" + v;
    RecordRead(v);
    var w := SkipBlanks(v);
    if w != "" && w[0] == '}' {
      var gap := SkippedBlanks(v);
      t := Record(gap, []);
      EmptyReads("", "");
      assert w == "}" + rest && u == Written(t) + rest;
    } else {
      var members := MembersOf(v);
      t := Record("", members);
      assert u == Written(t) + rest;
    }
  }

  lemma {:induction false} ItemsOf(s: string) returns (items: seq<Item>)
    requires ReadItems(s).Some?
    ensures items != [] && (forall i | 0 <= i < |items| :: ProperItem(items[i]))
    ensures s == WrittenItems(items) + "]" + ReadItems(s).value.1 && MeansItems(items) == ReadItems(s).value.0
    decreases |s|, 2
  {
    hide ReadValue, SkipBlanks, Written, WrittenItems, MeansItems, Means, Proper;
    var gap, t := TreeOf(s);
    var more, rest := ReadValue(s).value.1, ReadItems(s).value.1;
    var after := SkippedBlanks(more);
    var next := SkipBlanks(more);
    var item := Item(gap, t, after);
    if next[0] == ']' {
      items := [item];
      ItemsForm(items);
      NoItems();
      assert items[1..] == [] && next == "]" + rest;
      assert s == gap + Written(t) + (after + next);
    } else {
      var others := ItemsOf(next[1..]);
      items := [item] + others;
      ItemsForm(items);
      assert items[1..] == others && next == "," + next[1..];
      assert s == gap + Written(t) + (after + next);
    }
  }

  lemma {:induction false} MembersOf(s: string) returns (members: seq<Member>)
    requires ReadFields(s).Some?
    ensures members != [] && (forall i | 0 <= i < |members| :: ProperMember(members[i]))
    ensures s == WrittenMembers(members) + "}" + ReadFields(s).value.1 && MeansMembers(members) == ReadFields(s).value.0
    decreases |s|, 2
  {
    hide ReadValue, SkipBlanks, ReadString, Written, WrittenMembers, MeansMembers, Means, Proper, TextFor, Line;
    var before := SkippedBlanks(s);
    var q := SkipBlanks(s);
    var (name, after) := ReadString(q[1..]).value;
    StringExactly(q[1..], name, after);
    var spelled :| TextFor(spelled, name) && q[1..] == spelled + "\"" + after;
    var colon := SkippedBlanks(after);
    var u := SkipBlanks(after);
    var gap, t := TreeOf(u[1..]);
    var more, rest := ReadValue(u[1..]).value.1, ReadFields(s).value.1;
    var trail := SkippedBlanks(more);
    var next := SkipBlanks(more);
    var m := Member(before, spelled, name, colon, gap, t, trail);
    MemberText(s, m, q, after, u, more, next);
    if next[0] == '}' {
      members := [m];
      MembersForm(members);
      NoItems();
      var line := FirstLine(members, next);
      assert members[1..] == [] && next == "}" + rest;
      assert WrittenMembers(members) + "}" + rest == WrittenMembers(members) + next;
    } else {
      var others := MembersOf(next[1..]);
      members := [m] + others;
      MembersForm(members);
      var line := FirstLine(members, "}" + rest);
      assert members[1..] == others && next == "," + next[1..];
      assert "," + WrittenMembers(others) + ("}" + rest) == next;
      assert WrittenMembers(members) + "}" + rest == WrittenMembers(members) + ("}" + rest);
    }
  }

  lemma MemberText(s: string, m: Member, q: string, after: string, u: string, more: string, next: string)
    requires s == m.before + q && q != "" && q[0] == '"' && q[1..] == m.spelled + "\"" + after
    requires after == m.colon + u && u != "" && u[0] == ':' && u[1..] == m.gap + Written(m.value) + more
             && more == m.after + next
    ensures s == Line(m.before, m.spelled, m.colon, m.gap + Written(m.value) + m.after + next)
  {
    assert q == "\"" + q[1..] && u == ":" + u[1..];
    assert m.gap + Written(m.value) + (m.after + next) == m.gap + Written(m.value) + m.after + next;
    assert after == m.colon + ":" + u[1..];
    assert q == "\"" + (m.spelled + "\"" + after);
    hide Written;
  }

  /** A text is read as a value, and the rest left over, exactly when it is one of the texts of that value. */
  lemma ValueExactly(s: string, value: Value, rest: string)
    ensures ReadValue(s) == Some((value, rest)) <==>
            exists gap, t :: Blanks(gap) && Proper(t) && s == gap + Written(t) + rest && Means(t) == value
  {
    if ReadValue(s) == Some((value, rest)) { var gap, t := TreeOf(s); }
    if gap, t :| Blanks(gap) && Proper(t) && s == gap + Written(t) + rest && Means(t) == value {
      TreeReads(gap, t, rest);
    }
    hide ReadValue, Proper, Written, Means;
  }

  /** A whole text is parsed exactly when it is a value between blanks. */
  ghost predicate IsTextOf(s: string, value: Value) {
    exists gap, t, after ::
        Blanks(gap) && Proper(t) && Blanks(after) && s == gap + Written(t) + after && Means(t) == value
  }

  lemma ParseExactly(s: string, value: Value)
    ensures Parse(s) == Some(value) <==> IsTextOf(s, value)
  {
    hide ReadValue, Proper, Written, Means, SkipBlanks;
    if Parse(s) == Some(value) {
      var gap, t := TreeOf(s);
      var rest := ReadValue(s).value.1;
      var after := SkippedBlanks(rest);
      assert rest == after + "" == after;
    }
    if IsTextOf(s, value) {
      var gap, t, after :|
        Blanks(gap) && Proper(t) && Blanks(after) && s == gap + Written(t) + after && Means(t) == value;
      TreeReads(gap, t, after);
      assert after + "" == after;
      BlanksSkipped(after, "");
      NoBlank("");
    }
  }
}
