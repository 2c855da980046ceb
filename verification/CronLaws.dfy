/** What cron promises: a field is the union of its terms, `next` finds the least due minute in
    its window, and the three acceptors of the notation nest. */
module CronLaws {
  import opened Wrappers
  import opened Cron

  // ---------------------------------------------------------------- fields

  lemma {:induction false} EveryMeans(begin: int, end: int, step: nat, v: int)
    requires step > 0
    ensures v in Every(begin, end, step) <==> v <= end && exists k: nat :: v == begin + k * step
    decreases end - begin
  {
    if begin <= end {
      EveryMeans(begin + step, end, step, v);
      if v in Every(begin + step, end, step) {
        var k: nat :| v == begin + step + k * step;
        assert v == begin + (k + 1) * step;
      }
      if v <= end && exists k: nat :: v == begin + k * step {
        var k: nat :| v == begin + k * step;
        if k == 0 { assert v == begin; } else {
          var j: nat := k - 1;
          assert v == begin + step + j * step;
        }
      }
      if v == begin { assert v == begin + 0 * step; }
    } else {
      if exists k: nat :: v == begin + k * step {
        var k: nat :| v == begin + k * step;
        assert k * step >= 0;
      }
    }
  }

  /** A value belongs to a field exactly when one of its list terms reaches it from that term's
      first value in whole steps. */
  ghost predicate Reaches(term: string, low: nat, high: nat, v: int) {
    && StepOf(term).Some? && RangeOf(term, low, high).Some?
    && v <= RangeOf(term, low, high).value.1
    && exists k: nat :: v == RangeOf(term, low, high).value.0 + k * StepOf(term).value
  }

  ghost predicate Reached(terms: seq<string>, low: nat, high: nat, v: int) {
    exists i | 0 <= i < |terms| :: Reaches(terms[i], low, high, v)
  }

  /** Whole steps up from a value never lead below it. */
  lemma StepsUp(begin: int, k: nat, step: nat)
    ensures begin <= begin + k * step
  {}

  lemma TermReaches(term: string, low: nat, high: nat, v: int)
    requires Term(term, low, high).Some?
    ensures v in Term(term, low, high).value <==> Reaches(term, low, high, v)
    ensures v in Term(term, low, high).value ==> low <= v <= high
  {
    var range, step := RangeOf(term, low, high).value, StepOf(term).value;
    EveryMeans(range.0, range.1, step, v);
    if v in Term(term, low, high).value {
      var k: nat :| v == range.0 + k * step;
      StepsUp(range.0, k, step);
    }
    hide Split, Every, ParseNumber;
  }

  lemma ReachedMore(terms: seq<string>, low: nat, high: nat, v: int)
    requires terms != []
    ensures Reached(terms, low, high, v) <==> Reaches(terms[0], low, high, v) || Reached(terms[1..], low, high, v)
  {
    hide Reaches;
    if Reached(terms, low, high, v) {
      var i :| 0 <= i < |terms| && Reaches(terms[i], low, high, v);
      if i > 0 { assert terms[1..][i - 1] == terms[i]; }
    }
    if Reached(terms[1..], low, high, v) {
      var i :| 0 <= i < |terms[1..]| && Reaches(terms[1..][i], low, high, v);
      assert terms[i + 1] == terms[1..][i];
    }
  }

  lemma {:induction false} TermsAreUnion(terms: seq<string>, low: nat, high: nat, v: int)
    requires Terms(terms, low, high).Some?
    ensures v in Terms(terms, low, high).value <==> Reached(terms, low, high, v)
    ensures v in Terms(terms, low, high).value ==> low <= v <= high
    decreases |terms|
  {
    if terms != [] {
      TermsAreUnion(terms[1..], low, high, v);
      TermReaches(terms[0], low, high, v);
      ReachedMore(terms, low, high, v);
      hide Term, Reaches, Reached;
    }
  }

  lemma FieldIsUnion(part: string, low: nat, high: nat, v: int)
    requires Field(part, low, high).Some?
    ensures v in Field(part, low, high).value <==> Reached(Split(part, ','), low, high, v)
    ensures v in Field(part, low, high).value ==> low <= v <= high
  {
    TermsAreUnion(Split(part, ','), low, high, v);
  }

  /** Sunday may be written 0 or 7; the parsed weekday set holds it once, as 0. */
  lemma WeekdaysFoldSunday(part: string, v: int)
    requires Field(part, 0, 7).Some?
    ensures var weekday := Field(part, 0, 7).value;
            v in FoldSunday(weekday) <==> 0 <= v <= 6 && (v in weekday || (v == 0 && 7 in weekday))
  {
    FieldIsUnion(part, 0, 7, v);
  }

  // ---------------------------------------------------------------- the next due minute

  /** A parsed expression that some text stands behind. */
  ghost predicate FromText(c: Cron) { exists e :: Parse(e) == Some(c) }

  predicate OnMinute(at: int) { at % MINUTE == 0 }

  /** The candidates of a search: whole minutes strictly after `after`, before the end and within 366 days. */
  ghost predicate Due(cron: Cron, cal: Calendar, after: int, end: int, at: int) {
    OnMinute(at) && after < at && at < end && at < after + 366 * DAY && Matches(cron, cal, at)
  }

  /** Whole minutes are a minute apart. */
  lemma NextMinute(at: int, m: int)
    requires OnMinute(at)
    ensures OnMinute(at + MINUTE)
    ensures OnMinute(m) && at < m ==> at + MINUTE <= m
  {}

  lemma {:induction false} FirstMatchIsLeast(cron: Cron, cal: Calendar, at: int, ceiling: int)
    requires OnMinute(at)
    ensures var r := FirstMatch(cron, cal, at, ceiling);
            && (r.Some? ==> OnMinute(r.value) && at <= r.value < ceiling && Matches(cron, cal, r.value))
            && forall m | OnMinute(m) && at <= m < ceiling && Matches(cron, cal, m) :: r.Some? && r.value <= m
    decreases ceiling - at
  {
    hide Matches, OnMinute;
    if at < ceiling && !Matches(cron, cal, at) {
      NextMinute(at, at);
      FirstMatchIsLeast(cron, cal, at + MINUTE, ceiling);
      forall m | OnMinute(m) && at <= m < ceiling && Matches(cron, cal, m)
        ensures var r := FirstMatch(cron, cal, at, ceiling); r.Some? && r.value <= m
      {
        NextMinute(at, m);
      }
    }
  }

  /** `next` answers the least due minute, and None exactly when there is none. */
  lemma NextDueIsLeast(cron: Cron, cal: Calendar, after: int, end: int)
    ensures var r := NextDue(cron, cal, after, end);
            && (r.Some? ==> Due(cron, cal, after, end, r.value))
            && forall m | Due(cron, cal, after, end, m) :: r.Some? && r.value <= m
  {
    FirstMatchIsLeast(cron, cal, FirstMinuteAfter(after), Ceiling(after, end));
    forall m | Due(cron, cal, after, end, m) ensures FirstMinuteAfter(after) <= m {}
  }

  // ---------------------------------------------------------------- the acceptors nest

  /** A blank on which all three split and that the evaluator lets into an expression. */
  predicate Separator(c: char) { IsTextChar(c) && PythonBlank(c) && ScriptBlank(c) }

  /** The blanks that only some of the three take as such: vertical tab, form feed, the four
      information separators, next line, and the byte order mark. */
  predicate Foreign(c: char) {
    c == '\U{B}' || c == '\U{C}' || '\U{1C}' <= c <= '\U{1F}' || c == '\U{85}' || c == '\U{FEFF}'
  }

  predicate NoForeign(s: string) { forall i | 0 <= i < |s| :: !Foreign(s[i]) }

  /** Expressions over digits, `*`, `,`, `/`, `-` and blanks that all agree on. */
  predicate InAlphabet(s: string) { forall i | 0 <= i < |s| :: IsFieldChar(s[i]) || Separator(s[i]) }

  predicate Over(s: string, blank: char -> bool) { forall i | 0 <= i < |s| :: IsFieldChar(s[i]) || blank(s[i]) }

  lemma Blanks(c: char)
    ensures !(IsFieldChar(c) && (PythonBlank(c) || ScriptBlank(c)))
    ensures Foreign(c) <==> (PythonBlank(c) || ScriptBlank(c)) && !Separator(c)
  {}

  lemma {:induction false} WordsAgree(s: string)
    requires InAlphabet(s)
    ensures Words(s, ScriptBlank) == Words(s, PythonBlank)
    ensures forall i | 0 <= i < |Words(s, PythonBlank)| :: IsFieldText(Words(s, PythonBlank)[i])
  {
    if s != "" {
      WordsAgree(s[1..]);
      assert forall c | IsFieldChar(c) || Separator(c) :: ScriptBlank(c) == PythonBlank(c) == Separator(c);
    }
  }

  /** When every word is field text, so is everything but the blanks. */
  lemma {:induction false} WordsCover(s: string, blank: char -> bool)
    requires forall i | 0 <= i < |Words(s, blank)| :: IsFieldText(Words(s, blank)[i])
    ensures Over(s, blank)
  {
    if s != "" {
      var words, rest := Words(s, blank), Words(s[1..], blank);
      if blank(s[0]) {
        assert words == rest;
      } else if |s| == 1 || blank(s[1]) || rest == [] {
        assert words == [[s[0]]] + rest;
        assert IsFieldText(words[0]) && words[0][0] == s[0];
        assert forall i | 0 <= i < |rest| :: rest[i] == words[i + 1];
      } else {
        assert words == [[s[0]] + rest[0]] + rest[1..];
        assert words[0][0] == s[0] && words[0][1..] == rest[0];
        assert forall i | 1 <= i < |rest| :: rest[i] == words[i];
        WordsNonempty(s[1..], blank);
        assert IsFieldText(words[0]);
        assert rest[0] != "" && forall k | 0 <= k < |rest[0]| :: rest[0][k] == words[0][k + 1];
        assert IsFieldText(rest[0]);
        assert forall i | 0 <= i < |rest| :: IsFieldText(rest[i]);
      }
      WordsCover(s[1..], blank);
      assert forall i | 1 <= i < |s| :: s[i] == s[1..][i - 1];
    }
  }

  lemma {:induction false} WordsNonempty(s: string, blank: char -> bool)
    ensures forall i | 0 <= i < |Words(s, blank)| :: Words(s, blank)[i] != ""
  {
    if s != "" { WordsNonempty(s[1..], blank); }
  }

  /** No list term of the field steps wider than `limit`. */
  predicate StepsWithin(field: string, limit: nat) {
    var items := Split(field, ',');
    forall i | 0 <= i < |items| :: StepOf(items[i]).Some? ==> StepOf(items[i]).value <= limit
  }

  lemma {:induction false} SplitIdentity(s: string, sep: char)
    requires sep !in s
    ensures Split(s, sep) == [s]
  {
    if s != "" {
      SplitIdentity(s[1..], sep);
      assert [s[0]] + s[1..] == s;
    }
  }

  lemma {:induction false} SplitMore(s: string, sep: char)
    requires sep in s
    ensures |Split(s, sep)| >= 2
  {
    if s[0] != sep { SplitMore(s[1..], sep); }
  }

  lemma {:induction false} SplitPieces(s: string, sep: char)
    ensures forall i, j | 0 <= i < |Split(s, sep)| && 0 <= j < |Split(s, sep)[i]| ::
              Split(s, sep)[i][j] in s && Split(s, sep)[i][j] != sep
  {
    if s != "" { SplitPieces(s[1..], sep); }
  }

  lemma BaseEdges(base: string)
    ensures '-' in base <==> |Split(base, '-')| >= 2
    ensures '-' !in base ==> Split(base, '-') == [base]
  {
    if '-' in base { SplitMore(base, '-'); } else { SplitIdentity(base, '-'); }
  }

  /** A character of a text stands in one of its pieces, or separates two. */
  lemma {:induction false} SplitCover(s: string, sep: char, ok: char -> bool)
    requires forall i, j | 0 <= i < |Split(s, sep)| && 0 <= j < |Split(s, sep)[i]| :: ok(Split(s, sep)[i][j])
    ensures forall i | 0 <= i < |s| :: s[i] == sep || ok(s[i])
  {
    if s != "" {
      var pieces, rest := Split(s, sep), Split(s[1..], sep);
      if s[0] == sep {
        assert forall i | 0 <= i < |rest| :: rest[i] == pieces[i + 1];
      } else {
        assert pieces[0][0] == s[0];
        assert forall j | 0 <= j < |rest[0]| :: rest[0][j] == pieces[0][j + 1];
        assert forall i | 1 <= i < |rest| :: rest[i] == pieces[i];
      }
      SplitCover(s[1..], sep, ok);
      assert forall i | 1 <= i < |s| :: s[i] == s[1..][i - 1];
    }
  }

  /** On one list term the client and the evaluator differ only in how wide a step may be. */
  lemma ClientItemIsTerm(item: string, low: nat, high: nat)
    requires low <= high <= 59
    ensures ClientItem(item, low, high) <==>
            Term(item, low, high).Some? && StepOf(item).value <= high - low + 1
  {
    BaseEdges(Split(item, '/')[0]);
  }

  lemma StarStep(rest: string)
    ensures Split("*/" + rest, '/') == ["*"] + Split(rest, '/')
  {
    var slash, whole := "/" + rest, "*/" + rest;
    assert slash[0] == '/' && slash[1..] == rest;
    assert whole[0] == '*' && whole[1..] == slash;
    var pieces := Split(slash, '/');
    assert pieces == [""] + Split(rest, '/');
    assert pieces[0] == "" && pieces[1..] == Split(rest, '/');
    assert ['*'] + "" == "*";
  }

  lemma StarBase(element: string)
    requires Split(element, '/')[0] == "*"
    ensures element == "*" || (|element| >= 2 && element[..2] == "*/")
  {
    if |element| >= 2 { assert element[1..] != ""; }
  }

  predicate Plain(s: string) { forall i | 0 <= i < |s| :: IsFieldChar(s[i]) }

  /** Unicode reads this text as ASCII does. */
  ghost predicate SameNumber(s: string, digits: Digits) {
    && (Readable(s, digits) <==> IsDigits(s))
    && (Readable(s, digits) && IsDigits(s) ==> ReadNumber(s, digits) == Number(s))
  }

  /** On the characters of a field the digits of Unicode are those of ASCII. */
  lemma {:induction false} PlainReads(s: string, digits: Digits)
    requires Plain(s) && Decimal(digits)
    ensures SameNumber(s, digits)
    decreases |s|
  {
    assert forall i | 0 <= i < |s| :: digits(s[i]).Some? <==> '0' <= s[i] <= '9';
    if IsDigits(s) && |s| > 1 { PlainReads(s[..|s| - 1], digits); }
  }

  lemma PiecesRead(item: string, sep: char, digits: Digits)
    requires Plain(item) && Decimal(digits)
    ensures forall i | 0 <= i < |Split(item, sep)| ::
            Plain(Split(item, sep)[i]) && SameNumber(Split(item, sep)[i], digits)
  {
    hide Split, SameNumber, Decimal;
    var pieces := Split(item, sep);
    SplitPieces(item, sep);
    forall i | 0 <= i < |pieces| ensures Plain(pieces[i]) && SameNumber(pieces[i], digits) {
      forall j | 0 <= j < |pieces[i]| ensures IsFieldChar(pieces[i][j]) { assert pieces[i][j] in item; }
      PlainReads(pieces[i], digits);
    }
  }

  /** On one list term the evaluator and the proposal validator differ only in the step bound. */
  lemma TermIsProposalElement(item: string, low: nat, high: nat, digits: Digits)
    requires low <= high <= 59 && Decimal(digits) && Plain(item)
    ensures Term(item, low, high).Some? <==>
            ProposalElement(item, low, high, digits) && StepOf(item).Some? && StepOf(item).value <= high + 1
    ensures ProposalElement(item, low, high, digits) ==> StepOf(item).Some?
  {
    if item == "*" {
      SplitIdentity(item, '/');
    } else if |item| >= 2 && item[..2] == "*/" {
      StepElement(item, low, high, digits);
    } else {
      if Split(item, '/')[0] == "*" { StarBase(item); }
      PiecesRead(item, '/', digits);
      PiecesRead(Split(item, '/')[0], '-', digits);
      RangeElement(item, low, high, digits);
    }
    hide Split, Term, ProposalElement, StepOf;
  }

  lemma StepElement(item: string, low: nat, high: nat, digits: Digits)
    requires low <= high <= 59 && Decimal(digits) && Plain(item) && |item| >= 2 && item[..2] == "*/"
    ensures Term(item, low, high).Some? <==>
            ProposalElement(item, low, high, digits) && StepOf(item).Some? && StepOf(item).value <= high + 1
    ensures ProposalElement(item, low, high, digits) ==> StepOf(item).Some?
  {
    var rest := item[2..];
    assert item == "*/" + rest;
    StarStep(rest);
    PlainReads(rest, digits);
    if '/' in rest { SplitMore(rest, '/'); } else { SplitIdentity(rest, '/'); }
    hide Split, Decimal, Number, ReadNumber;
  }

  lemma RangeElement(item: string, low: nat, high: nat, digits: Digits)
    requires low <= high <= 59 && item != "*" && !(|item| >= 2 && item[..2] == "*/")
    requires var sections := Split(item, '/');
             var edges := Split(sections[0], '-');
             && sections[0] != "*" && (forall i | 0 <= i < |sections| :: SameNumber(sections[i], digits))
             && forall i | 0 <= i < |edges| :: SameNumber(edges[i], digits)
    ensures Term(item, low, high).Some? <==>
            ProposalElement(item, low, high, digits) && StepOf(item).Some? && StepOf(item).value <= high + 1
    ensures ProposalElement(item, low, high, digits) ==> StepOf(item).Some?
  {
    hide Split, Number, ReadNumber, IsDigits, Readable;
    var sections := Split(item, '/');
    var edges := Split(sections[0], '-');
    BaseEdges(sections[0]);
    assert SameNumber(edges[0], digits) && (|edges| > 1 ==> SameNumber(edges[1], digits));
    assert |sections| > 1 ==> SameNumber(sections[1], digits);
  }

  lemma ClientFieldIsField(field: string, low: nat, high: nat)
    requires low <= high <= 59 && IsFieldText(field)
    ensures ClientField(field, low, high) <==> Field(field, low, high).Some? && StepsWithin(field, high - low + 1)
  {
    var items := Split(field, ',');
    TermsAccept(items, low, high);
    forall i | 0 <= i < |items|
      ensures ClientItem(items[i], low, high) <==>
              Term(items[i], low, high).Some? && StepOf(items[i]).value <= high - low + 1
    {
      ClientItemIsTerm(items[i], low, high);
    }
  }

  lemma FieldIsProposalField(field: string, low: nat, high: nat, digits: Digits)
    requires low <= high <= 59 && IsFieldText(field) && Decimal(digits)
    ensures Field(field, low, high).Some? <==> ProposalField(field, low, high, digits) && StepsWithin(field, high + 1)
  {
    hide Decimal, Term, ProposalElement, StepOf, Split;
    var items := Split(field, ',');
    TermsAccept(items, low, high);
    SplitPieces(field, ',');
    forall i | 0 <= i < |items|
      ensures Term(items[i], low, high).Some? <==>
              ProposalElement(items[i], low, high, digits) && StepOf(items[i]).Some?
                  && StepOf(items[i]).value <= high + 1
      ensures ProposalElement(items[i], low, high, digits) ==> StepOf(items[i]).Some?
    {
      forall j | 0 <= j < |items[i]| ensures IsFieldChar(items[i][j]) { assert items[i][j] in field; }
      TermIsProposalElement(items[i], low, high, digits);
    }
  }

  lemma {:induction false} TermsAccept(terms: seq<string>, low: nat, high: nat)
    ensures Terms(terms, low, high).Some? <==> forall i | 0 <= i < |terms| :: Term(terms[i], low, high).Some?
    decreases |terms|
  {
    if terms != [] {
      TermsAccept(terms[1..], low, high);
      if forall i | 0 <= i < |terms| :: Term(terms[i], low, high).Some? {
        forall i | 0 <= i < |terms[1..]| ensures Term(terms[1..][i], low, high).Some? {
          assert terms[1..][i] == terms[i + 1];
        }
      }
      if Terms(terms, low, high).Some? {
        forall i | 0 <= i < |terms| ensures Term(terms[i], low, high).Some? {
          if i > 0 { assert terms[i] == terms[1..][i - 1]; }
        }
      }
    }
  }

  predicate StepsWithinWidth(field: string, low: nat, high: nat) { low <= high && StepsWithin(field, high - low + 1) }

  predicate StepsWithinLast(field: string, low: nat, high: nat) { StepsWithin(field, high + 1) }

  lemma FieldsAgree(fields: seq<string>, digits: Digits)
    requires (forall i | 0 <= i < |fields| :: IsFieldText(fields[i])) && Decimal(digits)
    ensures EachField(fields, ClientField) <==> EachField(fields, FieldAccepts) && EachField(fields, StepsWithinWidth)
    ensures EachField(fields, FieldAccepts) <==>
            EachField(fields, ProposalTest(digits)) && EachField(fields, StepsWithinLast)
  {
    hide Decimal, IsFieldText, ClientField, FieldAccepts, ProposalField, StepsWithinWidth, StepsWithinLast;
    if |fields| == 5 {
      FieldAgrees(fields[0], 0, 59, digits);
      FieldAgrees(fields[1], 0, 23, digits);
      FieldAgrees(fields[2], 1, 31, digits);
      FieldAgrees(fields[3], 1, 12, digits);
      FieldAgrees(fields[4], 0, 7, digits);
    }
  }

  lemma FieldAgrees(field: string, low: nat, high: nat, digits: Digits)
    requires low <= high <= 59 && IsFieldText(field) && Decimal(digits)
    ensures ClientField(field, low, high) <==> FieldAccepts(field, low, high) && StepsWithinWidth(field, low, high)
    ensures FieldAccepts(field, low, high) <==>
            ProposalField(field, low, high, digits) && StepsWithinLast(field, low, high)
  {
    ClientFieldIsField(field, low, high);
    FieldIsProposalField(field, low, high, digits);
  }

  // ---------------------------------------------------------------- whole expressions

  /** Each field that the client takes is field text. */
  lemma ClientFieldIsText(field: string, low: nat, high: nat)
    requires ClientField(field, low, high)
    ensures IsFieldText(field)
  {
    assert IsFieldChar(',');
    hide ClientItem, IsFieldChar;
    var items := Split(field, ',');
    forall i | 0 <= i < |items| ensures items[i] != "" && forall j | 0 <= j < |items[i]| :: IsFieldChar(items[i][j]) {
      ClientItemIsText(items[i], low, high);
    }
    SplitCover(field, ',', IsFieldChar);
    assert items[0] != "";
    if field == "" { SplitNothing(','); }
  }

  lemma SplitNothing(sep: char)
    ensures Split("", sep) == [""]
  {}

  lemma ClientItemIsText(item: string, low: nat, high: nat)
    requires ClientItem(item, low, high)
    ensures item != "" && forall j | 0 <= j < |item| :: IsFieldChar(item[j])
  {
    var sections := Split(item, '/');
    var edges := Split(sections[0], '-');
    if sections[0] != "*" { SplitCover(sections[0], '-', IsFieldChar); }
    SplitCover(item, '/', IsFieldChar);
  }

  /** The evaluator takes an expression exactly when it is text, all of it field characters and
      blanks, of five fields that it takes. */
  lemma EvaluatorAccepts(expression: string)
    ensures Parse(expression).Some? <==>
            IsExpressionText(expression) && EachField(Words(expression, PythonBlank), FieldAccepts)
    ensures Parse(expression).Some? ==> Over(expression, PythonBlank)
  {
    hide Words, Field, IsFieldText, Over, IsExpressionText;
    if Parse(expression).Some? {
      forall s, low, high | FieldAccepts(s, low, high) ensures IsFieldText(s) { AcceptedIsText(s, low, high); }
      FieldsAreText(Words(expression, PythonBlank), FieldAccepts);
      WordsCover(expression, PythonBlank);
    }
  }

  lemma AcceptedIsText(field: string, low: nat, high: nat)
    requires FieldAccepts(field, low, high)
    ensures IsFieldText(field)
  {
    hide Terms, Split;
  }

  lemma FieldsAreText(fields: seq<string>, test: (string, nat, nat) -> bool)
    requires EachField(fields, test) && forall s, low, high | test(s, low, high) :: IsFieldText(s)
    ensures forall i | 0 <= i < |fields| :: IsFieldText(fields[i])
  {
    hide IsFieldText;
    forall i | 0 <= i < |fields| ensures IsFieldText(fields[i]) {
      assert test(fields[i], BOUNDS[i].0, BOUNDS[i].1);
    }
  }

  lemma ClientCovers(expression: string)
    requires ClientAccepts(expression)
    ensures Over(expression, ScriptBlank)
  {
    hide Words, ClientField, IsFieldText;
    forall s, low, high | ClientField(s, low, high) ensures IsFieldText(s) { ClientFieldIsText(s, low, high); }
    FieldsAreText(Words(expression, ScriptBlank), ClientField);
    WordsCover(expression, ScriptBlank);
  }

  /** What is over the blanks of one and has no foreign blank is over those that all agree on. */
  lemma OverAgreed(expression: string)
    requires Over(expression, ScriptBlank) || Over(expression, PythonBlank)
    ensures NoForeign(expression) <==> InAlphabet(expression)
    ensures Over(expression, ScriptBlank) && Over(expression, PythonBlank) && IsExpressionText(expression) ==>
            NoForeign(expression)
  {
    hide PythonBlank, ScriptBlank, Foreign, IsFieldChar, Separator;
    forall i | 0 <= i < |expression|
      ensures (IsFieldChar(expression[i]) || ScriptBlank(expression[i]) || PythonBlank(expression[i])) ==>
                (!Foreign(expression[i]) <==> IsFieldChar(expression[i]) || Separator(expression[i]))
      ensures ScriptBlank(expression[i]) && PythonBlank(expression[i]) && IsTextChar(expression[i]) ==>
              !Foreign(expression[i])
      ensures IsFieldChar(expression[i]) ==> !Foreign(expression[i])
    {
      Blanks(expression[i]);
      AgreedBlank(expression[i]);
    }
  }

  lemma AgreedBlank(c: char)
    ensures Separator(c) <==> IsTextChar(c) && PythonBlank(c) && ScriptBlank(c)
  {}

  lemma AgreedIsText(expression: string)
    requires InAlphabet(expression)
    ensures IsExpressionText(expression) <==> 1 <= |expression| <= 120
  {}

  /** The client accepts exactly what the evaluator accepts, less long expressions and steps wider
      than their field, as far as no blank is foreign to one of them. What the one accepts within
      these bounds the other does if and only if there is no such blank in it. */
  lemma ClientRefinesEvaluator(expression: string)
    ensures var bounded := |expression| <= 100 && EachField(Words(expression, PythonBlank), StepsWithinWidth);
            && (NoForeign(expression) ==> (ClientAccepts(expression) <==> Parse(expression).Some? && bounded))
            && (ClientAccepts(expression) ==> (Parse(expression).Some? <==> NoForeign(expression)))
            && (Parse(expression).Some? && bounded ==> (ClientAccepts(expression) <==> NoForeign(expression)))
  {
    EvaluatorAccepts(expression);
    if ClientAccepts(expression) { ClientCovers(expression); }
    if ClientAccepts(expression) || Parse(expression).Some? {
      OverAgreed(expression);
      if InAlphabet(expression) { ClientInAlphabet(expression); }
    }
    hide ClientAccepts, Parse, Words, InAlphabet, NoForeign, Over, IsExpressionText;
  }

  lemma ClientInAlphabet(expression: string)
    requires InAlphabet(expression)
    ensures ClientAccepts(expression) <==>
            Parse(expression).Some? && |expression| <= 100
                && EachField(Words(expression, PythonBlank), StepsWithinWidth)
  {
    WordsAgree(expression);
    FieldsAgree(Words(expression, PythonBlank), Ascii);
    EvaluatorAccepts(expression);
    AgreedIsText(expression);
    hide Words, ClientField, FieldAccepts, StepsWithinWidth, InAlphabet, Parse;
    if expression == "" { NoWords(); }
  }

  function Ascii(c: char): Option<nat> { if '0' <= c <= '9' then Some((c - '0') as nat) else None }

  lemma NoWords()
    ensures Words("", PythonBlank) == [] && Words("", ScriptBlank) == []
  {}

  /** The evaluator accepts exactly those expressions of the proposal validator that are text of at
      most 120 characters, all of it ASCII digits, signs and blanks, with steps of at most one more
      than the field's last value. */
  lemma EvaluatorRefinesProposal(expression: string, digits: Digits)
    requires Decimal(digits)
    ensures Parse(expression).Some? <==>
            && ProposalAccepts(expression, digits) && IsExpressionText(expression) && Over(expression, PythonBlank)
            && EachField(Words(expression, PythonBlank), StepsWithinLast)
  {
    EvaluatorAccepts(expression);
    if Over(expression, PythonBlank) {
      WordsOver(expression, PythonBlank);
      FieldsAgree(Words(expression, PythonBlank), digits);
    }
    hide Words, FieldAccepts, StepsWithinLast, ProposalField, Parse, IsExpressionText, Over, PythonBlank;
  }

  /** Words of what is all field characters and blanks are field text. */
  lemma {:induction false} WordsOver(s: string, blank: char -> bool)
    requires Over(s, blank)
    ensures forall i | 0 <= i < |Words(s, blank)| :: IsFieldText(Words(s, blank)[i]) && Words(s, blank)[i][0] != '@'
  {
    if s != "" { WordsOver(s[1..], blank); }
  }

  /** What the evaluator accepts the proposal validator accepts, and what the client accepts the
      evaluator accepts if and only if every blank in it is a blank to both. */
  lemma AcceptorsNest(expression: string, digits: Digits)
    requires Decimal(digits)
    ensures Parse(expression).Some? ==> ProposalAccepts(expression, digits)
    ensures ClientAccepts(expression) ==> (Parse(expression).Some? <==> NoForeign(expression))
  {
    ClientRefinesEvaluator(expression);
    EvaluatorRefinesProposal(expression, digits);
  }

  /** An expression behind a byte order mark, which the client trims and the evaluator does not. */
  lemma MarkedExpression()
    ensures ClientAccepts("\U{FEFF}* * * * *") && Parse("\U{FEFF}* * * * *").None?
  {
    var marked := "\U{FEFF}* * * * *";
    hide Words;
    MarkedWords();
    assert EachField(["*", "*", "*", "*", "*"], ClientField) by { StarFields(); }
    assert Foreign(marked[0]);
    hide ClientField, Parse;
    ClientRefinesEvaluator(marked);
  }

  lemma MarkedWords()
    ensures Words("\U{FEFF}* * * * *", ScriptBlank) == ["*", "*", "*", "*", "*"]
  {
    var marked, plain := "\U{FEFF}* * * * *", "* * * * *";
    assert marked[0] == '\U{FEFF}' && marked[1..] == plain;
    BlankFirst(marked);
    StarWords("");
    StarWords(" *");
    StarWords(" * *");
    StarWords(" * * *");
    StarWords(" * * * *");
    hide Words;
    assert plain == "*" + " * * * *";
  }

  lemma StarFields()
    ensures EachField(["*", "*", "*", "*", "*"], ClientField)
  {
    SplitIdentity("*", ',');
    SplitIdentity("*", '/');
    SplitIdentity("*", '-');
    hide Split;
    assert forall low, high :: ClientItem("*", low, high);
  }

  lemma BlankFirst(s: string)
    requires s != "" && ScriptBlank(s[0])
    ensures Words(s, ScriptBlank) == Words(s[1..], ScriptBlank)
  {}

  lemma StarWords(rest: string)
    requires rest == "" || rest[0] == ' '
    ensures Words("*" + rest, ScriptBlank) == ["*"] + Words(rest, ScriptBlank)
    ensures Words(" *" + rest, ScriptBlank) == ["*"] + Words(rest, ScriptBlank)
  {
    assert ("*" + rest)[1..] == rest && (" *" + rest)[1..] == "*" + rest;
  }
}
