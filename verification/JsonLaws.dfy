/** Reading back what was printed, whatever follows it. */
module JsonLaws {
  import opened Wrappers
  import opened Json

  // ---------------------------------------------------------------- strings

  predicate Escaped(c: char) { EscapeChar(c) != [c] }

  lemma HexOfHex(n: nat)
    requires n < 16
    ensures HexDigit(Hex(n)) == Some(n)
  {}

  /** A control character comes back from its four digits. */
  lemma ControlRoundTrip(c: char, rest: string)
    requires c < ' ' && EscapeChar(c) == "\\u00" + [Hex(c as nat / 16), Hex(c as nat % 16)]
    ensures Escape(EscapeChar(c) + rest) == Some((c, 6))
  {
    var s := EscapeChar(c) + rest;
    HexOfHex(c as nat / 16);
    HexOfHex(c as nat % 16);
    assert s[2..6] == ['0', '0', Hex(c as nat / 16), Hex(c as nat % 16)];
    assert HexDigit('0') == Some(0);
    assert HexQuad(s[2..6]) == Some(c as nat);
  }

  /** Every character that is printed as an escape is read back from it. */
  lemma EscapeRoundTrip(c: char, rest: string)
    requires Escaped(c)
    ensures EscapeChar(c)[0] == '\\' && Escape(EscapeChar(c) + rest) == Some((c, |EscapeChar(c)|))
  {
    var s := EscapeChar(c) + rest;
    if EscapeChar(c) == "\\u00" + [Hex(c as nat / 16), Hex(c as nat % 16)] && c < ' ' {
      ControlRoundTrip(c, rest);
    } else {
      assert s[0] == '\\' && s[1] == EscapeChar(c)[1] && |EscapeChar(c)| == 2;
    }
  }

  lemma PlainChar(c: char)
    requires !Escaped(c)
    ensures c != '"' && c != '\\' && c >= ' '
  {}

  lemma {:induction false} ReadEscaped(s: string, rest: string)
    ensures ReadString(EscapeText(s) + "\"" + rest) == Some((s, rest))
    decreases |s|
  {
    var text := EscapeText(s) + "\"" + rest;
    if s == "" {
      assert text[1..] == rest;
    } else {
      var tail := EscapeText(s[1..]) + "\"" + rest;
      assert text == EscapeChar(s[0]) + tail;
      ReadEscaped(s[1..], rest);
      if Escaped(s[0]) {
        EscapeRoundTrip(s[0], tail);
        assert text[|EscapeChar(s[0])|..] == tail;
      } else {
        PlainChar(s[0]);
        assert text[1..] == tail;
      }
      assert [s[0]] + s[1..] == s;
    }
  }

  lemma ReadQuoted(s: string, rest: string)
    ensures Quote(s) + rest == "\"" + (EscapeText(s) + "\"" + rest)
    ensures ReadValue(Quote(s) + rest) == Some((Text(s), rest))
  {
    var text := Quote(s) + rest;
    assert text == "\"" + (EscapeText(s) + "\"" + rest);
    assert text[1..] == EscapeText(s) + "\"" + rest;
    ReadEscaped(s, rest);
    assert SkipBlanks(text) == text;
  }

  // ---------------------------------------------------------------- documents

  lemma PrintedStart(d: Doc, rest: string)
    ensures var s := Print(d) + rest; s != "" && (s[0] == '"' || s[0] == '[' || s[0] == '{') && SkipBlanks(s) == s
  {}

  // One step of each reader, away from the rest of its definition.

  lemma ListStep(u: string)
    requires u != "" && SkipBlanks(u) == u
    ensures u[0] == ']' ==> ReadValue("[" + u) == Some((List([]), u[1..]))
    ensures u[0] != ']' && ReadItems(u).Some? ==>
            ReadValue("[" + u) == Some((List(ReadItems(u).value.0), ReadItems(u).value.1))
  {
    assert ("[" + u)[1..] == u;
  }

  lemma ObjectStep(u: string)
    requires u != "" && SkipBlanks(u) == u
    ensures u[0] == '}' ==> ReadValue("{" + u) == Some((Object(map[]), u[1..]))
    ensures u[0] != '}' && ReadFields(u).Some? ==>
              ReadValue("{" + u) == Some((Object(Collect(ReadFields(u).value.0)), ReadFields(u).value.1))
  {
    assert ("{" + u)[1..] == u;
  }

  lemma ItemsStep(s: string, value: Value, more: string)
    requires ReadValue(s) == Some((value, more)) && more != "" && SkipBlanks(more) == more
    ensures more[0] == ']' ==> ReadItems(s) == Some(([value], more[1..]))
    ensures more[0] == ',' && ReadItems(more[1..]).Some? ==>
              ReadItems(s) == Some(([value] + ReadItems(more[1..]).value.0, ReadItems(more[1..]).value.1))
  {}

  lemma FieldsStep(s: string, name: string, after: string, value: Value, more: string)
    requires s != "" && s[0] == '"' && ReadString(s[1..]) == Some((name, after))
    requires after != "" && after[0] == ':' && ReadValue(after[1..]) == Some((value, more))
    requires more != "" && SkipBlanks(more) == more
    ensures more[0] == '}' ==> ReadFields(s) == Some(([(name, value)], more[1..]))
    ensures more[0] == ',' && ReadFields(more[1..]).Some? ==>
              ReadFields(s) == Some(([(name, value)] + ReadFields(more[1..]).value.0, ReadFields(more[1..]).value.1))
  {
    assert SkipBlanks(s) == s && SkipBlanks(after) == after;
  }

  lemma {:induction false} ReadPrinted(d: Doc, rest: string)
    ensures ReadValue(Print(d) + rest) == Some((Denote(d), rest))
    decreases d, 1
  {
    hide ReadValue, ReadItems, ReadFields, PrintItems, PrintFields;
    match d {
      case Str(text) => ReadQuoted(text, rest);
      case Arr(items) =>
        var u := PrintItems(items) + "]" + rest;
        assert Print(d) + rest == "[" + u;
        if items == [] {
          NothingPrinted();
          assert u == "]" + rest && u[1..] == rest && SkipBlanks(u) == u;
        } else {
          ItemsStart(items, "]" + rest);
          assert u == PrintItems(items) + ("]" + rest);
          ReadPrintedItems(items, rest);
        }
        ListStep(u);
      case Obj(fields) =>
        var u := PrintFields(fields) + "}" + rest;
        assert Print(d) + rest == "{" + u;
        if fields == [] {
          NothingPrinted();
          assert u == "}" + rest && u[1..] == rest && SkipBlanks(u) == u;
        } else {
          FieldsStart(fields, "}" + rest);
          assert u == PrintFields(fields) + ("}" + rest);
          ReadPrintedFields(fields, rest);
        }
        ObjectStep(u);
    }
  }

  lemma NothingPrinted()
    ensures PrintItems([]) == "" && PrintFields([]) == "" && DenoteItems([]) == [] && Collect(DenoteFields([])) == map[]
  {}

  lemma ItemsStart(items: seq<Doc>, rest: string)
    requires items != []
    ensures var s := PrintItems(items) + rest; s != "" && s[0] != ']' && SkipBlanks(s) == s
  {
    PrintedStart(items[0], "");
    assert Print(items[0]) + "" == Print(items[0]);
  }

  lemma FieldsStart(fields: seq<Field>, rest: string)
    requires fields != []
    ensures var s := PrintFields(fields) + rest; s != "" && s[0] == '"' && SkipBlanks(s) == s
  {}

  lemma PrintItemsStep(items: seq<Doc>)
    requires items != []
    ensures PrintItems(items) == if |items| == 1 then Print(items[0])
            else Print(items[0]) + "," + PrintItems(items[1..])
    ensures DenoteItems(items) == [Denote(items[0])] + DenoteItems(items[1..])
  {}

  lemma PrintFieldsStep(fields: seq<Field>)
    requires fields != []
    ensures var head := Quote(fields[0].name) + ":" + Print(fields[0].value);
            PrintFields(fields) == if |fields| == 1 then head else head + "," + PrintFields(fields[1..])
    ensures DenoteFields(fields) == [(fields[0].name, Denote(fields[0].value))] + DenoteFields(fields[1..])
  {}

  lemma {:induction false} ReadPrintedItems(items: seq<Doc>, rest: string)
    requires items != []
    ensures ReadItems(PrintItems(items) + "]" + rest) == Some((DenoteItems(items), rest))
    decreases items, 2
  {
    hide ReadValue, ReadItems, Print, PrintItems, DenoteItems, Denote;
    PrintItemsStep(items);
    var s := PrintItems(items) + "]" + rest;
    var after := if |items| == 1 then "]" + rest else "," + (PrintItems(items[1..]) + "]" + rest);
    assert s == Print(items[0]) + after;
    assert SkipBlanks(after) == after;
    ReadPrinted(items[0], after);
    ItemsStep(s, Denote(items[0]), after);
    if |items| == 1 {
      assert after[1..] == rest && items[1..] == [];
      NothingPrinted();
      assert DenoteItems(items) == [Denote(items[0])];
    } else {
      assert after[1..] == PrintItems(items[1..]) + "]" + rest;
      ReadPrintedItems(items[1..], rest);
    }
  }

  lemma {:induction false} ReadPrintedFields(fields: seq<Field>, rest: string)
    requires fields != []
    ensures ReadFields(PrintFields(fields) + "}" + rest) == Some((DenoteFields(fields), rest))
    decreases fields, 2
  {
    hide ReadValue, ReadFields, ReadString, Print, PrintFields, DenoteFields, Denote, Quote, EscapeText, Collect;
    PrintFieldsStep(fields);
    var s := PrintFields(fields) + "}" + rest;
    var name, value := fields[0].name, fields[0].value;
    var more := if |fields| == 1 then "}" + rest else "," + (PrintFields(fields[1..]) + "}" + rest);
    var after := ":" + (Print(value) + more);
    assert s == Quote(name) + after;
    ReadQuoted(name, after);
    ReadEscaped(name, after);
    assert s == "\"" + (EscapeText(name) + "\"" + after);
    assert s[1..] == EscapeText(name) + "\"" + after && after[1..] == Print(value) + more;
    assert SkipBlanks(more) == more;
    ReadPrinted(value, more);
    FieldsStep(s, name, after, Denote(value), more);
    if |fields| == 1 {
      assert more[1..] == rest && fields[1..] == [];
      NoFields();
      assert DenoteFields(fields) == [(name, Denote(value))];
    } else {
      assert more[1..] == PrintFields(fields[1..]) + "}" + rest;
      ReadPrintedFields(fields[1..], rest);
    }
  }

  lemma NoFields()
    ensures DenoteFields([]) == []
  {}

  /** Printing then parsing gives the value the document stands for. */
  lemma ParsePrint(d: Doc)
    ensures Parse(Print(d)) == Some(Denote(d))
  {
    ReadPrinted(d, "");
    assert Print(d) + "" == Print(d);
  }
}
