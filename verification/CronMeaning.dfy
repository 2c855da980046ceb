/** What a cron expression says, read off its text: which numbers each term names, which minutes
    fit the five words, and that evaluation and search agree with that reading. */
module CronMeaning {
  import opened Wrappers
  import opened Cron
  import L = CronLaws

  // ---------------------------------------------------------------- numerals

  function Numeral(n: nat): (s: string)
    ensures s != "" && forall i | 0 <= i < |s| :: '0' <= s[i] <= '9'
  {
    if n < 10 then ['0' + n as char] else Numeral(n / 10) + ['0' + (n % 10) as char]
  }

  ghost predicate Zeros(s: string) { forall i | 0 <= i < |s| :: s[i] == '0' }

  /** The decimal notation of a number, leading zeros allowed. */
  ghost predicate Writes(s: string, n: nat) { exists zeros :: Zeros(zeros) && s == zeros + Numeral(n) }

  lemma {:induction false} NumeralReads(zeros: string, n: nat)
    requires Zeros(zeros)
    ensures IsDigits(zeros + Numeral(n)) && Number(zeros + Numeral(n)) == n
    decreases n
  {
    var s := zeros + Numeral(n);
    var head := s[..|s| - 1];
    if n < 10 {
      assert head == zeros;
      ZerosRead(zeros);
    } else {
      NumeralReads(zeros, n / 10);
      assert head == zeros + Numeral(n / 10);
    }
  }

  lemma {:induction false} ZerosRead(zeros: string)
    requires Zeros(zeros)
    ensures Number(zeros) == 0
    decreases |zeros|
  {
    if zeros != "" { ZerosRead(zeros[..|zeros| - 1]); }
  }

  lemma OneMoreDigit(head: nat, digit: nat)
    requires head > 0 && digit < 10
    ensures Numeral(10 * head + digit) == Numeral(head) + ['0' + digit as char]
  {
    assert (10 * head + digit) / 10 == head && (10 * head + digit) % 10 == digit;
  }

  lemma DigitAppended(head: string, n: nat, digit: nat)
    requires Writes(head, n) && (n == 0 ==> Zeros(head)) && digit < 10
    ensures Writes(head + ['0' + digit as char], 10 * n + digit)
  {
    var last := ['0' + digit as char];
    if n == 0 {
      assert Zeros(head) && Numeral(digit) == last;
    } else {
      var zeros :| Zeros(zeros) && head == zeros + Numeral(n);
      OneMoreDigit(n, digit);
      assert head + last == zeros + (Numeral(n) + last);
    }
    hide Numeral;
  }

  lemma {:induction false} DigitsWrite(s: string)
    requires IsDigits(s)
    ensures Writes(s, Number(s))
    ensures Number(s) == 0 ==> Zeros(s)
    decreases |s|
  {
    hide Numeral;
    var head, digit: nat := s[..|s| - 1], s[|s| - 1] as int - '0' as int;
    assert s == head + ['0' + digit as char];
    if head == "" {
      OneDigit(digit);
      assert Zeros("") && s == "" + Numeral(digit);
    } else {
      DigitsWrite(head);
      DigitAppended(head, Number(head), digit);
      hide Writes;
    }
  }

  lemma OneDigit(digit: nat)
    requires digit < 10
    ensures Numeral(digit) == ['0' + digit as char]
  {}

  /** A number is read exactly from its notations. */
  lemma NumberExactly(s: string, n: nat)
    ensures ParseNumber(s) == Some(n) <==> Writes(s, n)
  {
    if Writes(s, n) {
      var zeros :| Zeros(zeros) && s == zeros + Numeral(n);
      NumeralReads(zeros, n);
    }
    if IsDigits(s) { DigitsWrite(s); }
  }

  lemma WritesDigits(s: string, n: nat)
    requires Writes(s, n)
    ensures IsDigits(s)
  {
    var zeros :| Zeros(zeros) && s == zeros + Numeral(n);
    NumeralReads(zeros, n);
  }

  // ---------------------------------------------------------------- pieces and words

  ghost predicate Free(s: string, sep: char) { forall i | 0 <= i < |s| :: s[i] != sep }

  function Join(pieces: seq<string>, sep: char): string {
    if pieces == [] then "" else if |pieces| == 1 then pieces[0] else pieces[0] + [sep] + Join(pieces[1..], sep)
  }

  lemma {:induction false} SplitPrefix(piece: string, sep: char, rest: string)
    requires Free(piece, sep)
    ensures Split(piece + [sep] + rest, sep) == [piece] + Split(rest, sep)
    decreases |piece|
  {
    var s := piece + [sep] + rest;
    if piece == "" {
      assert s[1..] == rest;
    } else {
      assert s[0] == piece[0] && s[1..] == piece[1..] + [sep] + rest;
      SplitPrefix(piece[1..], sep, rest);
      assert [piece[0]] + piece[1..] == piece;
    }
  }

  /** Splitting takes joined pieces apart again. */
  lemma {:induction false} SplitJoined(pieces: seq<string>, sep: char)
    requires pieces != [] && forall i | 0 <= i < |pieces| :: Free(pieces[i], sep)
    ensures Split(Join(pieces, sep), sep) == pieces
    decreases |pieces|
  {
    if |pieces| == 1 {
      L.SplitIdentity(pieces[0], sep);
    } else {
      SplitJoined(pieces[1..], sep);
      SplitPrefix(pieces[0], sep, Join(pieces[1..], sep));
    }
  }

  /** And whatever is split was joined from its pieces. */
  lemma {:induction false} JoinSplit(s: string, sep: char)
    ensures Join(Split(s, sep), sep) == s
    ensures forall i | 0 <= i < |Split(s, sep)| :: Free(Split(s, sep)[i], sep)
  {
    if s != "" {
      var rest := Split(s[1..], sep);
      JoinSplit(s[1..], sep);
      assert s == [s[0]] + s[1..];
      if s[0] == sep {
        JoinEmpty(rest, sep);
      } else {
        JoinLonger(s[0], rest, sep);
      }
      hide Join;
    }
  }

  lemma JoinEmpty(rest: seq<string>, sep: char)
    requires rest != []
    ensures Join([""] + rest, sep) == [sep] + Join(rest, sep)
  {
    assert ([""] + rest)[1..] == rest;
    assert "" + [sep] == [sep];
  }

  lemma JoinLonger(c: char, rest: seq<string>, sep: char)
    requires rest != []
    ensures Join([[c] + rest[0]] + rest[1..], sep) == [c] + Join(rest, sep)
  {
    var longer := [[c] + rest[0]] + rest[1..];
    assert longer[1..] == rest[1..] && longer[0] == [c] + rest[0];
    if |rest| > 1 {
      assert ([c] + rest[0]) + [sep] + Join(rest[1..], sep) == [c] + (rest[0] + [sep] + Join(rest[1..], sep));
    }
  }

  /** Text made of words between blanks: a gap before each word and one after the last. */
  function Spaced(gaps: seq<string>, words: seq<string>): string
    requires |gaps| == |words| + 1
  {
    if words == [] then gaps[0] else gaps[0] + words[0] + Spaced(gaps[1..], words[1..])
  }

  ghost predicate AllBlank(s: string, blank: char -> bool) { forall i | 0 <= i < |s| :: blank(s[i]) }

  ghost predicate NoneBlank(s: string, blank: char -> bool) { s != "" && forall i | 0 <= i < |s| :: !blank(s[i]) }

  lemma {:induction false} SkipBlanks(gap: string, rest: string, blank: char -> bool)
    requires AllBlank(gap, blank)
    ensures Words(gap + rest, blank) == Words(rest, blank)
    decreases |gap|
  {
    if gap == "" {
      assert gap + rest == rest;
    } else {
      assert (gap + rest)[1..] == gap[1..] + rest;
      SkipBlanks(gap[1..], rest, blank);
    }
  }

  lemma {:induction false} OneWord(word: string, rest: string, blank: char -> bool)
    requires NoneBlank(word, blank) && (rest == "" || blank(rest[0]))
    ensures Words(word + rest, blank) == [word] + Words(rest, blank)
    decreases |word|
  {
    var s := word + rest;
    assert s[1..] == word[1..] + rest;
    if |word| > 1 {
      OneWord(word[1..], rest, blank);
      assert [word[0]] + word[1..] == word;
      assert s[1] == word[1];
    } else {
      assert s[1..] == rest;
      assert [word[0]] == word;
    }
  }

  /** The words of a text are what stands between its blanks. */
  lemma {:induction false} WordsExactly(gaps: seq<string>, words: seq<string>, blank: char -> bool)
    requires |gaps| == |words| + 1
    requires forall i | 0 <= i < |gaps| :: AllBlank(gaps[i], blank) && (0 < i < |words| ==> gaps[i] != "")
    requires forall i | 0 <= i < |words| :: NoneBlank(words[i], blank)
    ensures Words(Spaced(gaps, words), blank) == words
    decreases |words|
  {
    if words == [] {
      SkipBlanks(gaps[0], "", blank);
      assert gaps[0] + "" == gaps[0];
    } else {
      var rest := Spaced(gaps[1..], words[1..]);
      assert forall i | 1 <= i < |gaps| :: gaps[1..][i - 1] == gaps[i];
      WordsExactly(gaps[1..], words[1..], blank);
      assert rest == "" || blank(rest[0]) by {
        if gaps[1] != "" { assert rest[0] == gaps[1][0]; }
      }
      OneWord(words[0], rest, blank);
      SkipBlanks(gaps[0], words[0] + rest, blank);
      assert gaps[0] + (words[0] + rest) == Spaced(gaps, words);
    }
  }

  // ---------------------------------------------------------------- terms

  /** A term in one of its six forms, and the first value, the last value and the step it stands for. */
  ghost predicate Spells(term: string, low: nat, high: nat, first: nat, last: nat, step: nat) {
    && low <= first <= last <= high && 1 <= step <= high + 1
    && (|| (term == "*" && first == low && last == high && step == 1)
        || (first == low && last == high && exists n :: Writes(n, step) && term == "*/" + n)
        || (first == last && step == 1 && Writes(term, first))
        || (last == high && exists a, n :: Writes(a, first) && Writes(n, step) && term == a + "/" + n)
        || (step == 1 && exists a, b :: Writes(a, first) && Writes(b, last) && term == a + "-" + b)
        || (exists a, b, n :: Writes(a, first) && Writes(b, last) && Writes(n, step) && term == a + "-" + b + "/" + n))
  }

  /** The numbers a term names: every `step` from the first up to the last. */
  ghost predicate Names(term: string, low: nat, high: nat, v: int) {
    exists first: nat, last: nat, step: nat ::
      Spells(term, low, high, first, last, step) && v <= last && exists k: nat :: v == first + k * step
  }

  lemma DigitsFree(s: string, sep: char)
    requires IsDigits(s) && (sep == '/' || sep == '-' || sep == ',')
    ensures Free(s, sep) && sep !in s
  {}

  /** The base of a term, read on its own. */
  ghost predicate BaseSpells(base: string, low: nat, high: nat, stepped: bool, first: nat, last: nat) {
    && low <= first <= last <= high
    && (|| (base == "*" && first == low && last == high)
        || (Writes(base, first) && last == if stepped then high else first)
        || (exists a, b :: Writes(a, first) && Writes(b, last) && base == a + "-" + b))
  }

  function BaseRange(base: string, low: nat, high: nat, stepped: bool): Option<(nat, nat)> {
    if base == "*" then Some((low, high))
    else if '-' in base then
      var edges := Split(base, '-');
      if |edges| != 2 then None
      else (match (ParseNumber(edges[0]), ParseNumber(edges[1]))
        case (Some(begin), Some(end)) => if low <= begin <= end <= high then Some((begin, end)) else None
        case _ => None)
    else (match ParseNumber(base)
      case None => None
      case Some(begin) =>
        var end := if stepped then high else begin;
        if low <= begin <= end <= high then Some((begin, end)) else None)
  }

  lemma TwoPieces(s: string, sep: char, a: string, b: string)
    requires Free(a, sep) && Free(b, sep)
    ensures Split(s, sep) == [a, b] <==> s == a + [sep] + b
  {
    assert Join([a, b], sep) == a + [sep] + b by { assert [a, b][1..] == [b]; }
    SplitJoined([a, b], sep);
    JoinSplit(s, sep);
  }

  lemma BaseExactly(base: string, low: nat, high: nat, stepped: bool, first: nat, last: nat)
    requires low <= high
    ensures BaseRange(base, low, high, stepped) == Some((first, last)) <==>
            BaseSpells(base, low, high, stepped, first, last)
  {
    hide Split, Writes;
    if Writes(base, first) { WritesDigits(base, first); }
    if a, b :| base == a + "-" + b { assert base[|a|] == '-'; }
    if BaseSpells(base, low, high, stepped, first, last) && base != "*" {
      if Writes(base, first) && last == if stepped then high else first {
        NumberExactly(base, first);
        WritesDigits(base, first);
        DigitsFree(base, '-');
      } else {
        var a, b :| Writes(a, first) && Writes(b, last) && base == a + "-" + b;
        NumberExactly(a, first);
        NumberExactly(b, last);
        WritesDigits(a, first);
        WritesDigits(b, last);
        DigitsFree(a, '-');
        DigitsFree(b, '-');
        TwoPieces(base, '-', a, b);
        assert base[|a|] == '-';
      }
    }
    if BaseRange(base, low, high, stepped) == Some((first, last)) && base != "*" {
      if '-' in base {
        var a, b := Split(base, '-')[0], Split(base, '-')[1];
        assert Split(base, '-') == [a, b];
        NumberExactly(a, first);
        NumberExactly(b, last);
        JoinSplit(base, '-');
        TwoPieces(base, '-', a, b);
        assert base == a + "-" + b;
      } else {
        NumberExactly(base, first);
      }
    }
  }

  lemma RangeIsBase(term: string, low: nat, high: nat)
    ensures RangeOf(term, low, high) == BaseRange(Split(term, '/')[0], low, high, |Split(term, '/')| == 2)
  {}

  /** A term is read exactly in its six forms. */
  lemma TermExactly(term: string, low: nat, high: nat, first: nat, last: nat, step: nat)
    requires low <= high
    ensures StepOf(term) == Some(step) && RangeOf(term, low, high) == Some((first, last)) && 1 <= step <= high + 1 <==>
            Spells(term, low, high, first, last, step)
  {
    hide Split, Writes, BaseRange, RangeOf;
    RangeIsBase(term, low, high);
    var sections := Split(term, '/');
    if StepOf(term) == Some(step) && RangeOf(term, low, high) == Some((first, last)) && 1 <= step <= high + 1 {
      BaseExactly(sections[0], low, high, |sections| == 2, first, last);
      JoinSplit(term, '/');
      if |sections| == 2 {
        var base, n := sections[0], sections[1];
        NumberExactly(n, step);
        assert sections == [base, n];
        TwoPieces(term, '/', base, n);
        SteppedSpells(base, n, low, high, first, last, step);
      } else {
        assert term == sections[0];
      }
    }
    if Spells(term, low, high, first, last, step) { SpellsRead(term, low, high, first, last, step); }
  }

  lemma SteppedSpells(base: string, n: string, low: nat, high: nat, first: nat, last: nat, step: nat)
    requires BaseSpells(base, low, high, true, first, last) && Writes(n, step) && 1 <= step <= high + 1
    ensures Spells(base + "/" + n, low, high, first, last, step)
  {
    hide Writes;
    if base == "*" {
      assert base + "/" + n == "*/" + n;
    } else if !Writes(base, first) || last != high {
      var a, b :| Writes(a, first) && Writes(b, last) && base == a + "-" + b;
      assert base + "/" + n == a + "-" + b + "/" + n;
    }
  }

  lemma SpellsRead(term: string, low: nat, high: nat, first: nat, last: nat, step: nat)
    requires low <= high && Spells(term, low, high, first, last, step)
    ensures StepOf(term) == Some(step) && RangeOf(term, low, high) == Some((first, last))
  {
    hide Split, Writes, BaseRange, RangeOf;
    RangeIsBase(term, low, high);
    StepOrWhole(term, low, high, first, last, step);
    if base, n :| BaseSpells(base, low, high, true, first, last) && Writes(n, step) && term == base + "/" + n {
      NumberExactly(n, step);
      WritesDigits(n, step);
      DigitsFree(n, '/');
      BaseFree(base, low, high, true, first, last);
      TwoPieces(term, '/', base, n);
      BaseExactly(base, low, high, true, first, last);
    } else {
      BaseFree(term, low, high, false, first, last);
      L.SplitIdentity(term, '/');
      BaseExactly(term, low, high, false, first, last);
    }
  }

  /** A term is its base, or its base and a step. */
  lemma StepOrWhole(term: string, low: nat, high: nat, first: nat, last: nat, step: nat)
    requires Spells(term, low, high, first, last, step)
    ensures || (step == 1 && BaseSpells(term, low, high, false, first, last))
            || exists base, n ::
                 BaseSpells(base, low, high, true, first, last) && Writes(n, step) && term == base + "/" + n
  {
    hide Writes;
    if n :| first == low && last == high && Writes(n, step) && term == "*/" + n {
      assert BaseSpells("*", low, high, true, first, last) && term == "*" + "/" + n;
    } else if a, n :| last == high && Writes(a, first) && Writes(n, step) && term == a + "/" + n {
      assert BaseSpells(a, low, high, true, first, last);
    } else if a, b, n :| Writes(a, first) && Writes(b, last) && Writes(n, step) && term == a + "-" + b + "/" + n {
      assert BaseSpells(a + "-" + b, low, high, true, first, last) && term == (a + "-" + b) + "/" + n;
    }
  }

  lemma BaseFree(base: string, low: nat, high: nat, stepped: bool, first: nat, last: nat)
    requires BaseSpells(base, low, high, stepped, first, last)
    ensures Free(base, '/') && '/' !in base
  {
    hide Writes;
    if Writes(base, first) {
      WritesDigits(base, first);
      DigitsFree(base, '/');
    } else if base != "*" {
      var a, b :| Writes(a, first) && Writes(b, last) && base == a + "-" + b;
      WritesDigits(a, first);
      WritesDigits(b, last);
      DigitsFree(a, '/');
      DigitsFree(b, '/');
    }
  }

  // ---------------------------------------------------------------- fields

  ghost predicate Spelled(term: string, low: nat, high: nat) {
    exists first: nat, last: nat, step: nat :: Spells(term, low, high, first, last, step)
  }

  lemma TermNames(term: string, low: nat, high: nat, v: int)
    requires low <= high
    ensures Term(term, low, high).Some? <==> Spelled(term, low, high)
    ensures Term(term, low, high).Some? ==> (v in Term(term, low, high).value <==> Names(term, low, high, v))
  {
    hide Spells, StepOf, RangeOf;
    if Spelled(term, low, high) {
      var first: nat, last: nat, step: nat :| Spells(term, low, high, first, last, step);
      TermExactly(term, low, high, first, last, step);
      SpellsBounds(term, low, high, first, last, step);
    }
    if Term(term, low, high).Some? {
      var range, step := RangeOf(term, low, high).value, StepOf(term).value;
      TermExactly(term, low, high, range.0, range.1, step);
      L.EveryMeans(range.0, range.1, step, v);
      forall first: nat, last: nat, other: nat | Spells(term, low, high, first, last, other)
        ensures first == range.0 && last == range.1 && other == step
      {
        TermExactly(term, low, high, first, last, other);
      }
      hide Every;
    }
  }

  lemma SpellsBounds(term: string, low: nat, high: nat, first: nat, last: nat, step: nat)
    requires Spells(term, low, high, first, last, step)
    ensures 1 <= step <= high + 1
  {}

  /** A number is named by a word when one of the terms between its commas names it. */
  ghost predicate WordNames(word: string, low: nat, high: nat, v: int) {
    exists terms, i | 0 <= i < |terms| ::
      && word == Join(terms, ',') && (forall k | 0 <= k < |terms| :: Free(terms[k], ','))
      && Names(terms[i], low, high, v)
  }

  ghost predicate WordSpelled(word: string, low: nat, high: nat) {
    exists terms | terms != [] ::
      word == Join(terms, ',') && forall k | 0 <= k < |terms| :: Free(terms[k], ',') && Spelled(terms[k], low, high)
  }

  lemma {:induction false} TermsExactly(terms: seq<string>, low: nat, high: nat, v: int)
    requires low <= high
    ensures Terms(terms, low, high).Some? <==> forall i | 0 <= i < |terms| :: Spelled(terms[i], low, high)
    ensures Terms(terms, low, high).Some? ==>
              (v in Terms(terms, low, high).value <==> exists i | 0 <= i < |terms| :: Names(terms[i], low, high, v))
    decreases |terms|
  {
    if terms != [] {
      TermsExactly(terms[1..], low, high, v);
      TermNames(terms[0], low, high, v);
      hide Spelled, Names, Term;
      assert forall i | 1 <= i < |terms| :: terms[1..][i - 1] == terms[i];
      assert forall i | 0 <= i < |terms[1..]| :: terms[1..][i] == terms[i + 1];
    }
  }

  lemma FieldExactly(word: string, low: nat, high: nat, v: int)
    requires low <= high
    ensures Field(word, low, high).Some? <==> WordSpelled(word, low, high)
    ensures Field(word, low, high).Some? ==> (v in Field(word, low, high).value <==> WordNames(word, low, high, v))
  {
    hide Spelled, Names, Terms, Split, Join;
    var terms := Split(word, ',');
    JoinSplit(word, ',');
    TermsExactly(terms, low, high, v);
    forall other: seq<string> | other != [] && word == Join(other, ',') && forall k | 0 <= k < |other| ::
        Free(other[k], ',')
      ensures other == terms
    {
      SplitJoined(other, ',');
    }
    if Terms(terms, low, high).Some? { TermsText(word, low, high); }
  }

  lemma DigitsText(s: string, n: nat)
    requires Writes(s, n)
    ensures s != "" && forall i | 0 <= i < |s| :: IsFieldChar(s[i])
  {
    WritesDigits(s, n);
    hide Writes;
  }

  lemma SpelledText(term: string, low: nat, high: nat)
    requires Spelled(term, low, high)
    ensures term != "" && forall i | 0 <= i < |term| :: IsFieldChar(term[i])
  {
    hide Writes, IsFieldChar;
    var first: nat, last: nat, step: nat :| Spells(term, low, high, first, last, step);
    forall s, n | Writes(s, n) ensures s != "" && forall i | 0 <= i < |s| :: IsFieldChar(s[i]) { DigitsText(s, n); }
    SignsText();
  }

  lemma SignsText()
    ensures IsFieldChar('*') && IsFieldChar('/') && IsFieldChar('-') && IsFieldChar(',')
  {}

  lemma TermsText(word: string, low: nat, high: nat)
    requires low <= high && Terms(Split(word, ','), low, high).Some?
    ensures IsFieldText(word)
  {
    hide Terms, Spelled, Split;
    var terms := Split(word, ',');
    TermsExactly(terms, low, high, 0);
    forall i | 0 <= i < |terms| ensures terms[i] != "" && forall j | 0 <= j < |terms[i]| :: IsFieldChar(terms[i][j]) {
      SpelledText(terms[i], low, high);
    }
    assert terms[0] != "";
    if word == "" { L.SplitIdentity("", ','); }
    L.SplitCover(word, ',', IsFieldChar);
    assert forall i | 0 <= i < |word| :: IsFieldChar(word[i]);
  }

  // ---------------------------------------------------------------- expressions

  /** Printable text and the usual breaks, 1 to 120 characters of it. */
  ghost predicate ExpressionText(e: string) {
    1 <= |e| <= 120 && forall i | 0 <= i < |e| :: ' ' <= e[i] || e[i] == '\n' || e[i] == '\r' || e[i] == '\t'
  }

  /** The five words of an expression, each spelled for its field. */
  ghost predicate FiveWords(w: seq<string>) {
    && |w| == 5 && WordSpelled(w[0], 0, 59) && WordSpelled(w[1], 0, 23) && WordSpelled(w[2], 1, 31)
    && WordSpelled(w[3], 1, 12) && WordSpelled(w[4], 0, 7)
  }

  lemma ParseExactly(e: string)
    ensures Parse(e).Some? <==> ExpressionText(e) && FiveWords(Words(e, PythonBlank))
  {
    hide Field, WordSpelled, Words;
    var w := Words(e, PythonBlank);
    if |w| == 5 {
      FieldExactly(w[0], 0, 59, 0);
      FieldExactly(w[1], 0, 23, 0);
      FieldExactly(w[2], 1, 31, 0);
      FieldExactly(w[3], 1, 12, 0);
      FieldExactly(w[4], 0, 7, 0);
    }
  }

  /** Sunday is 0, and may be written 7. */
  ghost predicate WeekdayNamed(word: string, day: int) {
    WordNames(word, 0, 7, day) || (day == 0 && WordNames(word, 0, 7, 7))
  }

  /** The day rule: a `*` leaves its side open, and where both sides are given either will do. Day 0
      of the count was a Thursday. */
  ghost predicate DayFits(w: seq<string>, cal: Calendar, day: int)
    requires |w| == 5
  {
    var weekday := (day + 4) % 7;
    if w[2] == "*" then 1 <= cal.day(day) <= 31 && WeekdayNamed(w[4], weekday)
    else if w[4] == "*" then WordNames(w[2], 1, 31, cal.day(day))
    else WordNames(w[2], 1, 31, cal.day(day)) || WeekdayNamed(w[4], weekday)
  }

  /** The minute, the hour and the month are named by their words, and the day fits. */
  ghost predicate Fits(w: seq<string>, cal: Calendar, at: int)
    requires |w| == 5
  {
    var day := at / 86_400_000;
    && WordNames(w[0], 0, 59, at / 60_000 % 60) && WordNames(w[1], 0, 23, at / 3_600_000 % 24)
    && WordNames(w[3], 1, 12, cal.month(day)) && DayFits(w, cal, day)
  }

  lemma StarNames(low: nat, high: nat, v: int)
    requires low <= high
    ensures WordNames("*", low, high, v) <==> low <= v <= high
  {
    hide Writes;
    assert Join(["*"], ',') == "*";
    if low <= v <= high {
      var k: nat := v - low;
      assert Spells("*", low, high, low, high, 1) && v == low + k * 1;
      assert Names(["*"][0], low, high, v);
      assert Free(["*"][0], ',');
    }
    if WordNames("*", low, high, v) {
      var terms, i :| 0 <= i < |terms| && "*" == Join(terms, ',')
          && (forall k | 0 <= k < |terms| :: Free(terms[k], ',')) && Names(terms[i], low, high, v);
      var first: nat, last: nat, step: nat :| Spells(terms[i], low, high, first, last, step) && v <= last
          && exists k: nat :: v == first + k * step;
      var k: nat :| v == first + k * step;
      L.StepsUp(first, k, step);
    }
  }

  /** The weekday set holds what the word names, with 7 read as 0. */
  lemma WeekdayExactly(word: string, day: int)
    requires Field(word, 0, 7).Some? && 0 <= day <= 6
    ensures day in FoldSunday(Field(word, 0, 7).value) <==> WeekdayNamed(word, day)
  {
    L.WeekdaysFoldSunday(word, day);
    FieldExactly(word, 0, 7, day);
    FieldExactly(word, 0, 7, 7);
    hide Field, FoldSunday, WordNames;
  }

  lemma DayExactly(w: seq<string>, c: Cron, cal: Calendar, day: int)
    requires ParseParts(w) == Some(c)
    ensures var dom, dow := cal.day(day) in c.day, WeekdayOf(day) in c.weekday;
            (if c.anyDay || c.anyWeekday then dom && dow else dom || dow) <==> DayFits(w, cal, day)
  {
    hide Field, FoldSunday, WordNames, WeekdayNamed;
    FieldExactly(w[2], 1, 31, cal.day(day));
    WeekdayExactly(w[4], WeekdayOf(day));
    StarNames(1, 31, cal.day(day));
    StarNames(0, 7, WeekdayOf(day));
    StarWeekday(WeekdayOf(day));
  }

  lemma StarWeekday(day: int)
    requires 0 <= day <= 6
    ensures WeekdayNamed("*", day)
  {
    StarNames(0, 7, day);
    hide WordNames;
  }

  /** A minute matches a parsed expression exactly when it fits the words of its text. */
  lemma MatchesExactly(e: string, c: Cron, cal: Calendar, at: int)
    requires Parse(e) == Some(c)
    ensures var w := Words(e, PythonBlank); |w| == 5 && (Matches(c, cal, at) <==> Fits(w, cal, at))
  {
    var w := Words(e, PythonBlank);
    DayExactly(w, c, cal, at / 86_400_000);
    FieldExactly(w[0], 0, 59, at / 60_000 % 60);
    FieldExactly(w[1], 0, 23, at / 3_600_000 % 24);
    FieldExactly(w[3], 1, 12, cal.month(at / 86_400_000));
    assert at / 60_000 / 60 == at / 3_600_000;
    hide Field, FoldSunday, WordNames, DayFits, Words, IsExpressionText;
  }

  // ---------------------------------------------------------------- the next due minute

  /** A whole minute after `after`, before the end and less than 366 days on, that fits the words. */
  ghost predicate DueFits(w: seq<string>, cal: Calendar, after: int, end: int, at: int)
    requires |w| == 5
  {
    at % 60_000 == 0 && after < at < end && at < after + 31_622_400_000 && Fits(w, cal, at)
  }

  /** `next` answers the least due minute of the text, and None exactly when it has none. */
  lemma NextExactly(e: string, c: Cron, cal: Calendar, after: int, end: int)
    requires Parse(e) == Some(c)
    ensures var w, r := Words(e, PythonBlank), NextDue(c, cal, after, end);
            && |w| == 5 && (r.Some? ==> DueFits(w, cal, after, end, r.value))
            && forall m | DueFits(w, cal, after, end, m) :: r.Some? && r.value <= m
  {
    hide Words, Fits, Matches, Parse;
    var w, r := Words(e, PythonBlank), NextDue(c, cal, after, end);
    MatchesExactly(e, c, cal, after);
    L.NextDueIsLeast(c, cal, after, end);
    forall at ensures |w| == 5 && (Matches(c, cal, at) <==> Fits(w, cal, at)) { MatchesExactly(e, c, cal, at); }
    forall m | DueFits(w, cal, after, end, m) ensures L.Due(c, cal, after, end, m) {}
    hide NextDue;
  }

  /** A whole minute that fits the text of a parsed expression, whichever text that was. */
  ghost predicate MinuteOf(c: Cron, cal: Calendar, at: int) {
    && at % 60_000 == 0 && (exists e :: Parse(e) == Some(c))
    && forall e | Parse(e) == Some(c) :: var w := Words(e, PythonBlank); |w| == 5 && Fits(w, cal, at)
  }

  lemma MinuteExactly(c: Cron, cal: Calendar, at: int)
    requires L.FromText(c)
    ensures L.OnMinute(at) && Matches(c, cal, at) <==> MinuteOf(c, cal, at)
  {
    hide Words, Fits, Matches, Parse;
    forall e | Parse(e) == Some(c)
      ensures var w := Words(e, PythonBlank); |w| == 5 && (Matches(c, cal, at) <==> Fits(w, cal, at))
    {
      MatchesExactly(e, c, cal, at);
    }
  }
}
