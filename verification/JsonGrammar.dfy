/** The texts that RFC 8259 (sections 2 to 7, without numbers) takes for a value, and that the reader
    takes exactly these: every spelling of a character, every blank, every repeated name. */
module JsonGrammar {
  import opened Wrappers
  import opened Json

  // ---------------------------------------------------------------- hexadecimal

  /** The digit of this value, in small or capital letters. */
  ghost predicate DigitFor(c: char, d: nat) {
    d < 16 && (c == "0123456789abcdef"[d] || c == "0123456789ABCDEF"[d])
  }

  /** Four digits, the highest first. */
  ghost predicate QuadFor(s: string, n: nat) {
    && |s| == 4 && n < 0x10000 && DigitFor(s[0], n / 4096) && DigitFor(s[1], n / 256 % 16)
    && DigitFor(s[2], n / 16 % 16) && DigitFor(s[3], n % 16)
  }

  lemma DigitExactly(c: char, d: nat)
    ensures HexDigit(c) == Some(d) <==> DigitFor(c, d)
  {
    var small, capital := "0123456789abcdef", "0123456789ABCDEF";
    assert forall i: nat | i < 10 :: small[i] == '0' + i as char && capital[i] == '0' + i as char;
    assert forall i: nat | 10 <= i < 16 :: small[i] == 'a' + (i - 10) as char && capital[i] == 'A' + (i - 10) as char;
  }

  lemma LastDigit(high: nat, d: nat, n: nat)
    requires d < 16
    ensures n == high * 16 + d <==> high == n / 16 && d == n % 16
  {}

  lemma Sixteenths(n: nat)
    ensures n / 256 == n / 16 / 16 && n / 4096 == n / 16 / 16 / 16
    ensures n < 0x10000 <==> n / 4096 < 16
  {}

  lemma FourDigits(a: nat, b: nat, c: nat, d: nat, n: nat)
    requires a < 16 && b < 16 && c < 16 && d < 16
    ensures n == ((a * 16 + b) * 16 + c) * 16 + d <==>
            n < 0x10000 && a == n / 4096 && b == n / 256 % 16 && c == n / 16 % 16 && d == n % 16
  {
    Sixteenths(n);
    LastDigit((a * 16 + b) * 16 + c, d, n);
    LastDigit(a * 16 + b, c, n / 16);
    LastDigit(a, b, n / 16 / 16);
  }

  /** Four digits are read as the number they stand for, and nothing else is. */
  lemma QuadExactly(s: string, n: nat)
    requires |s| == 4
    ensures HexQuad(s) == Some(n) <==> QuadFor(s, n)
  {
    hide HexDigit, DigitFor;
    if HexQuad(s) == Some(n) {
      Sixteen(s);
      var a, b, c, d := HexDigit(s[0]).value, HexDigit(s[1]).value, HexDigit(s[2]).value, HexDigit(s[3]).value;
      FourDigits(a, b, c, d, n);
      DigitsExactly(s, a, b, c, d);
    }
    if QuadFor(s, n) { QuadReads(s, n / 4096, n / 256 % 16, n / 16 % 16, n % 16, n); }
  }

  lemma QuadReads(s: string, a: nat, b: nat, c: nat, d: nat, n: nat)
    requires |s| == 4 && DigitFor(s[0], a) && DigitFor(s[1], b) && DigitFor(s[2], c) && DigitFor(s[3], d)
    requires n < 0x10000 && a == n / 4096 && b == n / 256 % 16 && c == n / 16 % 16 && d == n % 16
    ensures HexQuad(s) == Some(n)
  {
    assert a < 16 && b < 16 && c < 16 && d < 16;
    DigitsExactly(s, a, b, c, d);
    FourDigits(a, b, c, d, n);
    hide HexDigit, DigitFor;
  }

  lemma DigitsExactly(s: string, a: nat, b: nat, c: nat, d: nat)
    requires |s| == 4
    ensures HexDigit(s[0]) == Some(a) && HexDigit(s[1]) == Some(b) && HexDigit(s[2]) == Some(c)
            && HexDigit(s[3]) == Some(d) <==>
            DigitFor(s[0], a) && DigitFor(s[1], b) && DigitFor(s[2], c) && DigitFor(s[3], d)
  {
    DigitExactly(s[0], a);
    DigitExactly(s[1], b);
    DigitExactly(s[2], c);
    DigitExactly(s[3], d);
    hide HexDigit, DigitFor;
  }

  lemma Sixteen(s: string)
    ensures forall i | 0 <= i < |s| && HexDigit(s[i]).Some? :: HexDigit(s[i]).value < 16
  {}

  // ---------------------------------------------------------------- one character

  /** The eight short escapes. */
  ghost predicate ShortFor(letter: char, c: char) {
    || (letter == '"' && c == '"') || (letter == '\\' && c == '\\') || (letter == '/' && c == '/')
    || (letter == 'b' && c == '\U{8}') || (letter == 'f' && c == '\U{C}') || (letter == 'n' && c == '\U{A}')
    || (letter == 'r' && c == '\U{D}') || (letter == 't' && c == '\U{9}')
  }

  /** A short escape, four digits, or for a character beyond them the two halves of its pair. */
  ghost predicate EscapeFor(s: string, c: char) {
    || (|s| == 2 && s[0] == '\\' && ShortFor(s[1], c))
    || (|s| == 6 && s[..2] == "\\u" && QuadFor(s[2..], c as nat))
    || (|s| == 12 && s[..2] == "\\u" && s[6..8] == "\\u" && c as nat >= 0x10000
        && QuadFor(s[2..6], 0xD800 + (c as nat - 0x10000) / 0x400)
           && QuadFor(s[8..], 0xDC00 + (c as nat - 0x10000) % 0x400))
  }

  lemma ShortExactly(letter: char, c: char)
    ensures Simple(letter) == Some(c) <==> ShortFor(letter, c)
  {}

  lemma QuadOnce(s: string, n: nat, m: nat)
    requires QuadFor(s, n) && QuadFor(s, m)
    ensures n == m
  {
    QuadExactly(s, n);
    QuadExactly(s, m);
    hide QuadFor;
  }

  /** An escape is read exactly from its spellings; half a pair spells nothing. */
  lemma EscapeExactly(s: string, c: char, n: nat)
    ensures Escape(s) == Some((c, n)) <==> n <= |s| && EscapeFor(s[..n], c)
  {
    assert 1 <= n <= |s| ==> s[..n][0] == s[0];
    if |s| >= 2 && s[0] == '\\' {
      if s[1] != 'u' {
        ShortEscape(s, c, n);
      } else {
        LongEscape(s, c, n);
      }
    }
  }

  lemma ShortEscape(s: string, c: char, n: nat)
    requires |s| >= 2 && s[0] == '\\' && s[1] != 'u'
    ensures Escape(s) == Some((c, n)) <==> n <= |s| && EscapeFor(s[..n], c)
  {
    ShortExactly(s[1], c);
    hide Simple, ShortFor, QuadFor, HexQuad;
    assert 2 <= n <= |s| ==> s[..n][..2] == s[..2] && s[..n][1] == s[1] && s[..n][0] == s[0];
  }

  lemma LongEscape(s: string, c: char, n: nat)
    requires |s| >= 2 && s[0] == '\\' && s[1] == 'u'
    ensures Escape(s) == Some((c, n)) <==> n <= |s| && EscapeFor(s[..n], c)
  {
    hide QuadFor, HexQuad;
    if Escape(s) == Some((c, n)) { EscapeSpelled(s, c, n); }
    if n <= |s| && EscapeFor(s[..n], c) { SpelledEscape(s, c, n); }
  }

  lemma EscapeSpelled(s: string, c: char, n: nat)
    requires |s| >= 2 && s[0] == '\\' && s[1] == 'u' && Escape(s) == Some((c, n))
    ensures n <= |s| && EscapeFor(s[..n], c)
  {
    hide QuadFor, HexQuad;
    var high := HexQuad(s[2..6]).value;
    QuadExactly(s[2..6], high);
    assert s[..n][..2] == "\\u";
    if n == 6 {
      assert s[..6][2..] == s[2..6];
    } else {
      var low := HexQuad(s[8..12]).value;
      QuadExactly(s[8..12], low);
      assert s[..12][2..6] == s[2..6] && s[..12][8..] == s[8..12] && s[..12][6..8] == "\\u";
      HalvesOf(high - 0xD800, low - 0xDC00);
    }
  }

  lemma HalvesOf(high: nat, low: nat)
    requires low < 0x400
    ensures (high * 0x400 + low) / 0x400 == high && (high * 0x400 + low) % 0x400 == low
  {}

  lemma SpelledEscape(s: string, c: char, n: nat)
    requires |s| >= 2 && s[0] == '\\' && s[1] == 'u' && n <= |s| && EscapeFor(s[..n], c)
    ensures Escape(s) == Some((c, n))
  {
    hide QuadFor, HexQuad;
    assert s[..n][1] == s[1];
    if n == 6 {
      assert s[..6][2..] == s[2..6];
      QuadExactly(s[2..6], c as nat);
    } else if n == 12 {
      assert s[..12][2..6] == s[2..6] && s[..12][8..] == s[8..12] && s[..12][6..8] == s[6..8];
      var high, low := 0xD800 + (c as nat - 0x10000) / 0x400, 0xDC00 + (c as nat - 0x10000) % 0x400;
      QuadExactly(s[2..6], high);
      QuadExactly(s[8..12], low);
      assert s[6..8][0] == s[6] && s[6..8][1] == s[7];
      assert 0x10000 + (high - 0xD800) * 0x400 + (low - 0xDC00) == c as nat;
    }
  }

  /** Four digits and then the end of a text, or another character than a backslash: half a pair is no
      character. */
  lemma LoneHalf(digits: string, n: nat, rest: string)
    requires QuadFor(digits, n) && 0xD800 <= n < 0xE000
    requires rest == "" || rest[0] != '\\' || n >= 0xDC00
    ensures Escape("\\u" + digits + rest) == None
  {
    var s := "\\u" + digits + rest;
    assert s[2..6] == digits;
    QuadExactly(digits, n);
    hide QuadFor, HexQuad;
    if |s| >= 12 { assert s[6] == rest[0]; }
  }

  // ---------------------------------------------------------------- strings

  /** One character of a string: itself, when it needs no escape, or one of its escapes. */
  ghost predicate CharFor(s: string, c: char) { (s == [c] && c != '"' && c != '\\' && ' ' <= c) || EscapeFor(s, c) }

  ghost predicate TextFor(s: string, text: string)
    decreases |s|
  {
    if text == "" then s == ""
    else exists n: nat | 0 < n <= |s| :: CharFor(s[..n], text[0]) && TextFor(s[n..], text[1..])
  }

  lemma ReadOne(head: string, c: char, tail: string)
    requires CharFor(head, c) && ReadString(tail).Some?
    ensures ReadString(head + tail) == Some(([c] + ReadString(tail).value.0, ReadString(tail).value.1))
  {
    var whole := head + tail;
    assert whole[..|head|] == head && whole[|head|..] == tail;
    if EscapeFor(head, c) {
      EscapeExactly(whole, c, |head|);
      assert head[0] == '\\' && whole[0] == head[0];
    } else {
      assert whole[0] == c;
    }
    hide EscapeFor, Escape;
  }

  lemma TextFirst(s: string, text: string) returns (n: nat)
    requires TextFor(s, text) && text != ""
    ensures 0 < n <= |s| && CharFor(s[..n], text[0]) && TextFor(s[n..], text[1..])
  {
    n :| 0 < n <= |s| && CharFor(s[..n], text[0]) && TextFor(s[n..], text[1..]);
    hide CharFor;
  }

  lemma TextOfFirst(s: string, text: string, n: nat)
    requires text != "" && 0 < n <= |s| && CharFor(s[..n], text[0]) && TextFor(s[n..], text[1..])
    ensures TextFor(s, text)
  {
    hide CharFor;
  }

  lemma Slices(s: string, n: nat, k: nat)
    requires n <= k <= |s|
    ensures s[n..][k - n..] == s[k..] && s[n..][..k - n] == s[..k][n..] && s[..k][..n] == s[..n]
  {}

  lemma EmptyText(s: string, rest: string)
    requires TextFor(s, "")
    ensures s == "" && ReadString(s + "\"" + rest) == Some(("", rest))
  {
    assert s + "\"" + rest == "\"" + rest && ("\"" + rest)[1..] == rest;
  }

  lemma Regrouped(s: string, n: nat, rest: string)
    requires n <= |s|
    ensures s[..n] + (s[n..] + rest) == s + rest
  {}

  /** A string ends with the first quote that is no part of an escape. */
  lemma {:induction false} ReadSpelled(s: string, text: string, rest: string)
    requires TextFor(s, text)
    ensures ReadString(s + "\"" + rest) == Some((text, rest))
    decreases |s|
  {
    hide CharFor, TextFor, ReadString;
    var whole := s + "\"" + rest;
    if text == "" {
      EmptyText(s, rest);
    } else {
      var n := TextFirst(s, text);
      var tail := s[n..] + "\"" + rest;
      ReadSpelled(s[n..], text[1..], rest);
      ReadOne(s[..n], text[0], tail);
      Regrouped(s, n, "\"" + rest);
      assert tail == s[n..] + ("\"" + rest) && whole == s + ("\"" + rest);
      assert [text[0]] + text[1..] == text;
    }
  }

  /** The first character of a string that was read, and how many places it took. */
  lemma ReadFirst(s: string, text: string, rest: string) returns (n: nat)
    requires ReadString(s) == Some((text, rest)) && s[0] != '"'
    ensures 0 < n <= |s| && text != "" && CharFor(s[..n], text[0]) && ReadString(s[n..]) == Some((text[1..], rest))
  {
    hide Escape, EscapeFor;
    n := if s[0] == '\\' then Escape(s).value.1 else 1;
    var c := if s[0] == '\\' then Escape(s).value.0 else s[0];
    if s[0] == '\\' { EscapeExactly(s, c, n); }
    assert text == [c] + ReadString(s[n..]).value.0;
  }

  lemma ReadStarts(s: string)
    requires ReadString(s).Some?
    ensures s != ""
  {}

  /** The spelling of the first character in front of the spelling of the others. */
  lemma Respelled(s: string, n: nat, k: nat, text: string, rest: string)
    requires text != "" && 0 < n <= k < |s| && k == |s| - |rest| - 1
    requires CharFor(s[..n], text[0]) && TextFor(s[n..][..k - n], text[1..]) && s[n..][k - n..] == "\"" + rest
    ensures s[k..] == "\"" + rest && TextFor(s[..k], text)
  {
    hide CharFor, TextFor;
    Slices(s, n, k);
    TextOfFirst(s[..k], text, n);
  }

  lemma {:induction false} ReadWasSpelled(s: string, text: string, rest: string)
    requires ReadString(s) == Some((text, rest))
    ensures |rest| < |s| && s[|s| - |rest| - 1..] == "\"" + rest && TextFor(s[..|s| - |rest| - 1], text)
    decreases |s|
  {
    hide ReadString, CharFor, TextFor;
    ReadStarts(s);
    if s[0] == '"' {
      EndOfText(s, text, rest);
    } else {
      var n := ReadFirst(s, text, rest);
      ReadWasSpelled(s[n..], text[1..], rest);
      Respelled(s, n, |s| - |rest| - 1, text, rest);
    }
  }

  lemma EndOfText(s: string, text: string, rest: string)
    requires ReadString(s) == Some((text, rest)) && s[0] == '"'
    ensures |rest| == |s| - 1 && s[0..] == "\"" + rest && TextFor(s[..0], text)
  {
    assert rest == s[1..] && text == "" && s[..0] == "";
  }

  /** A string is read exactly from the spellings of its text. */
  lemma StringExactly(s: string, text: string, rest: string)
    ensures ReadString(s) == Some((text, rest)) <==> exists spelled ::
            TextFor(spelled, text) && s == spelled + "\"" + rest
  {
    hide TextFor;
    if ReadString(s) == Some((text, rest)) {
      ReadWasSpelled(s, text, rest);
      var k := |s| - |rest| - 1;
      assert s == s[..k] + "\"" + rest;
    }
    if spelled :| TextFor(spelled, text) && s == spelled + "\"" + rest { ReadSpelled(spelled, text, rest); }
  }

  /** The simple escapes, one by one. */
  lemma ShortEscapes(rest: string)
    ensures Escape("\\\"" + rest) == Some(('"', 2)) && Escape("\\\\" + rest) == Some(('\\', 2))
    ensures Escape("\\/" + rest) == Some(('/', 2)) && Escape("\\b" + rest) == Some(('\U{8}', 2))
    ensures Escape("\\f" + rest) == Some(('\U{C}', 2)) && Escape("\\n" + rest) == Some(('\U{A}', 2))
    ensures Escape("\\r" + rest) == Some(('\U{D}', 2)) && Escape("\\t" + rest) == Some(('\U{9}', 2))
  {}
}
