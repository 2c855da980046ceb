/** Which transcripts are replayed and what each message becomes, with every limit a number and every
    size the length of an explicit text in UTF-8. */
module Transcripts {
  import opened Wrappers
  import opened History
  import opened HistoryLaws
  import J = Json

  // ---------------------------------------------------------------- UTF-8

  /** The bytes of a character (RFC 3629, section 3). */
  function BytesOf(c: char): seq<nat> {
    var n := c as nat;
    if n < 0x80 then [n]
    else if n < 0x800 then [0xC0 + n / 0x40, 0x80 + n % 0x40]
    else if n < 0x10000 then [0xE0 + n / 0x1000, 0x80 + n / 0x40 % 0x40, 0x80 + n % 0x40]
    else [0xF0 + n / 0x40000, 0x80 + n / 0x1000 % 0x40, 0x80 + n / 0x40 % 0x40, 0x80 + n % 0x40]
  }

  function Utf8(s: string): seq<nat> { if s == "" then [] else BytesOf(s[0]) + Utf8(s[1..]) }

  lemma {:induction false} BytesExactly(s: string)
    ensures Utf8Bytes(s) == |Utf8(s)|
    decreases |s|
  {
    if s != "" { BytesExactly(s[1..]); }
  }

  lemma {:induction false} Utf8Append(a: string, b: string)
    ensures Utf8(a + b) == Utf8(a) + Utf8(b)
    decreases |a|
  {
    if a == "" {
      assert a + b == b;
    } else {
      assert (a + b)[0] == a[0] && (a + b)[1..] == a[1..] + b;
      Utf8Append(a[1..], b);
    }
  }

  // ---------------------------------------------------------------- one message

  /** Text without control characters but line breaks and tabs, and its size in bytes. */
  ghost predicate Plain(s: string, least: nat, most: nat, bytes: nat) {
    && least <= |s| <= most && |Utf8(s)| <= bytes
    && forall i | 0 <= i < |s| :: ' ' <= s[i] || s[i] == '\n' || s[i] == '\r' || s[i] == '\t'
  }

  ghost predicate NameLike(s: string, most: nat) {
    && 1 <= |s| <= most
    && forall i | 0 <= i < |s| ::
       'A' <= s[i] <= 'Z' || 'a' <= s[i] <= 'z' || '0' <= s[i] <= '9' || s[i] == '_' || s[i] == '-'
  }

  ghost predicate CallStands(c: Codec, q: Call) {
    && NameLike(q.id, 200) && q.kind == "function" && NameLike(q.name, 100)
    && (q.callId == None || q.callId == Some(q.id))
    && (q.responseItemId.Some? ==> NameLike(q.responseItemId.value, 200))
    && Plain(q.arguments, 0, 65536, 65536) && c.isObject(q.arguments)
  }

  ghost predicate TimeStands(t: Option<Timestamp>) {
    t == None || (t.value.Finite? && 0.0 <= t.value.value <= 100000000000.0)
  }

  ghost predicate ReasoningStands(r: Option<string>) { r.Some? ==> Plain(r.value, 0, 64000, 65536) }

  ghost predicate MessageStands(c: Codec, m: Message) {
    match m
    case Malformed => false
    case User(content, t) => TimeStands(t) && Plain(content, 0, 16000, 65536)
    case Tool(content, id, _, _, t) =>
      TimeStands(t) && Plain(content, 0, 262144, 262144) && Plain(id, 1, 200, |Utf8(id)|)
    case Assistant(text, calls, reasoning, reasoningContent, finish, t) =>
      && TimeStands(t) && ReasoningStands(reasoning) && ReasoningStands(reasoningContent)
      && (text.Some? ==> Plain(text.value, 0, 64000, 65536))
         && (finish.Some? ==> Plain(finish.value, 0, 100, |Utf8(finish.value)|))
      && (calls.Some? ==> 1 <= |calls.value| <= 12 && forall i | 0 <= i < |calls.value| ::
          CallStands(c, calls.value[i]))
      && (text.Some? || calls.Some?)
  }

  lemma PlainExactly(s: string, least: nat, most: nat, bytes: nat)
    ensures IsText(s, most, least) && Utf8Bytes(s) <= bytes <==> Plain(s, least, most, bytes)
    ensures IsText(s, most, least) <==> Plain(s, least, most, |Utf8(s)|)
  {
    BytesExactly(s);
    hide Utf8, Utf8Bytes;
  }

  lemma NameExactly(s: string, most: nat)
    ensures IsText(s, most, 1) && IsName(s) <==> NameLike(s, most)
  {}

  lemma CallExactly(c: Codec, q: Call)
    ensures ValidCall(c, q) <==> CallStands(c, q)
  {
    NameExactly(q.id, 200);
    NameExactly(q.name, 100);
    if q.responseItemId.Some? { NameExactly(q.responseItemId.value, 200); }
    PlainExactly(q.arguments, 0, 65536, 65536);
    hide IsText, IsName, NameLike, Plain, Utf8Bytes, Utf8;
  }

  lemma MessageExactly(c: Codec, m: Message)
    ensures ValidMessage(c, m) <==> MessageStands(c, m)
  {
    match m {
      case User(content, _) => PlainExactly(content, 0, 16000, 65536);
      case Tool(content, id, _, _, _) =>
        PlainExactly(content, 0, 262144, 262144);
        PlainExactly(id, 1, 200, 0);
      case Assistant(text, calls, reasoning, reasoningContent, finish, _) =>
        if text.Some? { PlainExactly(text.value, 0, 64000, 65536); }
        if reasoning.Some? { PlainExactly(reasoning.value, 0, 64000, 65536); }
        if reasoningContent.Some? { PlainExactly(reasoningContent.value, 0, 64000, 65536); }
        if finish.Some? { PlainExactly(finish.value, 0, 100, 0); }
        forall i | 0 <= i < |CallsOf(m)| ensures ValidCall(c, CallsOf(m)[i]) <==> CallStands(c, CallsOf(m)[i]) {
          CallExactly(c, CallsOf(m)[i]);
        }
        assert calls.Some? ==> CallsOf(m) == calls.value;
      case _ =>
    }
    hide IsText, Plain, Utf8Bytes, Utf8, ValidCall, CallStands;
  }

  // ---------------------------------------------------------------- what a message becomes

  function BareCall(q: Call): Call { Call(q.id, q.kind, q.name, q.arguments, None, None) }

  /** What a message that is no tool answer is replayed as: without time, private reasoning and finish,
      and without the aliases of its calls. */
  ghost predicate ReplayedAs(m: Message, o: Message) {
    match m
    case User(content, _) => o == User(content, None)
    case Assistant(text, calls, _, reasoningContent, _, _) =>
      && o == Assistant(text, if o.Assistant? then o.calls else None, None, reasoningContent, None, None)
      && (calls.None? <==> o.calls.None?)
      && (calls.Some? ==> |o.calls.value| == |calls.value| && forall i | 0 <= i < |calls.value| ::
          o.calls.value[i] == BareCall(calls.value[i]))
    case _ => false
  }

  lemma ReplayedOnce(m: Message, o: Message, p: Message)
    requires ReplayedAs(m, o) && ReplayedAs(m, p)
    ensures o == p
  {
    if m.Assistant? && m.calls.Some? { assert o.calls.value == p.calls.value; }
  }

  /** Each message that is no answer, then the answers to its calls, each under the name of its call. */
  ghost predicate Replayed(h: seq<Message>, out: seq<Message>)
    decreases |h|
  {
    && |out| == |h|
    && (h != [] ==>
          var names := CallNames(CallsOf(h[0]));
          && ReplayedAs(h[0], out[0])
          && |names| <= |h[1..]|
          && Answered(names, h[1..][..|names|], out[1..][..|names|])
          && Replayed(h[1..][|names|..], out[1..][|names|..]))
  }

  ghost predicate Answered(names: map<string, string>, answers: seq<Message>, out: seq<Message>) {
    |out| == |answers| && forall j | 0 <= j < |answers| ::
      && answers[j].Tool? && answers[j].toolCallId in names
      && out[j] == Tool(answers[j].content, answers[j].toolCallId, Some(names[answers[j].toolCallId]), None, None)
  }

  lemma {:induction false} NamedIds(calls: seq<Call>, id: string)
    ensures id in CallNames(calls) <==> exists i | 0 <= i < |calls| :: calls[i].id == id
    decreases |calls|
  {
    if calls != [] {
      NamedIds(calls[1..], id);
      assert forall i | 1 <= i < |calls| :: calls[1..][i - 1] == calls[i];
      assert forall i | 0 <= i < |calls[1..]| :: calls[1..][i] == calls[i + 1];
    }
  }

  lemma {:induction false} DistinctExactly(calls: seq<Call>)
    ensures DistinctIds(calls) <==> forall i, j | 0 <= i < j < |calls| :: calls[i].id != calls[j].id
    decreases |calls|
  {
    if calls != [] {
      DistinctExactly(calls[1..]);
      NamedIds(calls[1..], calls[0].id);
      assert forall i | 1 <= i < |calls| :: calls[1..][i - 1] == calls[i];
      assert forall i | 0 <= i < |calls[1..]| :: calls[1..][i] == calls[i + 1];
      hide CallNames;
    }
  }

  /** The names of a message's calls, where no two calls share an id. */
  lemma {:induction false} NamesExactly(calls: seq<Call>)
    requires DistinctIds(calls)
    ensures |CallNames(calls)| == |calls|
    ensures forall i | 0 <= i < |calls| ::
            calls[i].id in CallNames(calls) && CallNames(calls)[calls[i].id] == calls[i].name
    decreases |calls|
  {
    if calls != [] {
      NamesExactly(calls[1..]);
      NamesWithFirst(calls);
      hide CallNames;
      var all := CallNames(calls);
      forall i | 0 <= i < |calls| ensures calls[i].id in all && all[calls[i].id] == calls[i].name {
        if i > 0 { assert calls[1..][i - 1] == calls[i]; }
      }
    }
  }

  lemma NamesWithFirst(calls: seq<Call>)
    requires calls != [] && DistinctIds(calls)
    ensures var rest, all := CallNames(calls[1..]), CallNames(calls);
            && DistinctIds(calls[1..]) && |all| == 1 + |rest| && calls[0].id in all && all[calls[0].id] == calls[0].name
            && forall id | id in rest :: id in all && all[id] == rest[id]
  {
    var rest, all := CallNames(calls[1..]), CallNames(calls);
    assert all.Keys == {calls[0].id} + rest.Keys;
    assert |all.Keys| == 1 + |rest.Keys| && |all| == |all.Keys| && |rest| == |rest.Keys|;
  }

  // ---------------------------------------------------------------- the scan replays

  lemma StepReplays(c: Codec, st: Scan, m: Message)
    requires Step(c, st, m).Some? && !m.Tool?
    ensures var next := Step(c, st, m).value;
            |next.out| == |st.out| + 1 && next.out[..|st.out|] == st.out && ReplayedAs(m, next.out[|st.out|])
            && next.pending == CallNames(CallsOf(m))
  {
    if m.Assistant? { OpenCallsExactly(CallsOf(m), map[], st.seen); }
    assert map[] + CallNames(CallsOf(m)) == CallNames(CallsOf(m));
    hide ValidMessage, OpenCalls;
  }

  lemma StepAnswers(c: Codec, st: Scan, m: Message)
    requires Step(c, st, m).Some? && m.Tool?
    ensures m.toolCallId in st.pending
    ensures Step(c, st, m).value ==
            Scan(st.out + [Tool(m.content, m.toolCallId, Some(st.pending[m.toolCallId]), None, None)],
                 st.pending - {m.toolCallId}, st.seen)
  {
    hide ValidMessage, NamesAgree;
  }

  lemma FirstAnswer(c: Codec, st: Scan, h: seq<Message>)
    requires 0 < |st.pending| <= |h| && AnswerEachOnce(c, st.pending, h[..|st.pending|])
    ensures var m, step := h[0], Step(c, st, h[0]);
            && m.Tool? && m.toolCallId in st.pending && step.Some?
            && step.value == Scan(st.out + [Tool(m.content, m.toolCallId, Some(st.pending[m.toolCallId]), None, None)],
                                  st.pending - {m.toolCallId}, st.seen)
            && |step.value.pending| == |st.pending| - 1
            && AnswerEachOnce(c, step.value.pending, h[1..][..|st.pending| - 1])
            && ScanFrom(c, st, h) == ScanFrom(c, step.value, h[1..])
  {
    var k, m := |st.pending|, h[0];
    assert h[..k][0] == m && AnswersOneOf(c, st.pending, m);
    StepAnswers(c, st, m);
    assert (st.pending - {m.toolCallId}).Keys == st.pending.Keys - {m.toolCallId};
    assert h[..k] == [m] + h[1..][..k - 1];
    AnswerFirst(c, st.pending, m, h[1..][..k - 1]);
    hide ValidMessage, NamesAgree, AnswerEachOnce;
  }

  /** The answers that a scan takes while calls are open, and what it makes of them. */
  lemma {:induction false} AnswersReplay(c: Codec, st: Scan, h: seq<Message>) returns (mid: Scan)
    requires |st.pending| <= |h| && AnswerEachOnce(c, st.pending, h[..|st.pending|])
    ensures var k := |st.pending|;
            && mid.pending == map[] && mid.seen == st.seen && ScanFrom(c, st, h) == ScanFrom(c, mid, h[k..])
            && |mid.out| == |st.out| + k && mid.out[..|st.out|] == st.out
               && Answered(st.pending, h[..k], mid.out[|st.out|..])
    decreases |h|
  {
    var k := |st.pending|;
    if k == 0 {
      assert st.pending == map[] && h[0..] == h;
      mid := st;
    } else {
      var m := h[0];
      FirstAnswer(c, st, h);
      hide AnswerEachOnce, AnswersOneOf, Answered, Step;
      var next := Step(c, st, m).value;
      mid := AnswersReplay(c, next, h[1..]);
      assert h[1..][k - 1..] == h[k..] && h[..k] == [m] + h[1..][..k - 1];
      AnsweredMore(st.pending, next.pending, m, h[1..][..k - 1], mid.out[|next.out|..]);
      assert mid.out[|st.out|..] == [next.out[|st.out|]] + mid.out[|next.out|..];
    }
  }

  lemma AnsweredMore(names: map<string, string>, less: map<string, string>, m: Message, rest: seq<Message>,
                     out: seq<Message>)
    requires m.Tool? && m.toolCallId in names && less == names - {m.toolCallId} && Answered(less, rest, out)
    ensures Answered(names, [m] + rest, [Tool(m.content, m.toolCallId, Some(names[m.toolCallId]), None, None)] + out)
  {}

  lemma {:induction false} ScanReplays(c: Codec, st: Scan, h: seq<Message>)
    requires st.pending == map[] && Closed(ScanFrom(c, st, h))
    ensures var out := ScanFrom(c, st, h).value.out;
            |out| == |st.out| + |h| && out[..|st.out|] == st.out && Replayed(h, out[|st.out|..])
    decreases |h|
  {
    hide ValidMessage, Conversation;
    if h == [] {
      assert st.out[|st.out|..] == [];
    } else {
      var m := h[0];
      var next := Step(c, st, m).value;
      StepReplays(c, st, m);
      var k := |next.pending|;
      AcceptsAnswers(c, next, h[1..]);
      var mid := AnswersReplay(c, next, h[1..]);
      ScanReplays(c, mid, h[1..][k..]);
      var out := ScanFrom(c, st, h).value.out;
      OutputParts(st.out, next.out, mid.out, out, k);
      hide ScanFrom, Step, AnswerEachOnce;
    }
  }

  lemma OutputParts(a: seq<Message>, b: seq<Message>, m: seq<Message>, out: seq<Message>, k: nat)
    requires |b| == |a| + 1 && b[..|a|] == a && |m| == |b| + k && m[..|b|] == b && |out| >= |m| && out[..|m|] == m
    ensures out[..|a|] == a && out[|a|..][0] == b[|a|]
    ensures out[|a|..][1..][..k] == m[|b|..] && out[|a|..][1..][k..] == out[|m|..]
  {
    assert forall i | 0 <= i < |m| :: out[i] == out[..|m|][i];
    assert forall i | 0 <= i < |b| :: m[i] == m[..|b|][i];
    assert forall i | 0 <= i < |a| :: b[i] == b[..|a|][i];
  }

  lemma ReplayedParts(h: seq<Message>, out: seq<Message>)
    requires h != [] && Replayed(h, out)
    ensures var k := |CallNames(CallsOf(h[0]))|;
            && |out| == |h| && k <= |h[1..]| && ReplayedAs(h[0], out[0])
            && Answered(CallNames(CallsOf(h[0])), h[1..][..k], out[1..][..k])
            && Replayed(h[1..][k..], out[1..][k..])
  {
    hide ReplayedAs, Answered, CallNames;
  }

  lemma AnsweredOnce(names: map<string, string>, answers: seq<Message>, a: seq<Message>, b: seq<Message>)
    requires Answered(names, answers, a) && Answered(names, answers, b)
    ensures a == b
  {}

  lemma Parted(a: seq<Message>, k: nat)
    requires a != [] && k <= |a[1..]|
    ensures a == [a[0]] + (a[1..][..k] + a[1..][k..])
  {}

  lemma {:induction false} ReplayedUnique(h: seq<Message>, a: seq<Message>, b: seq<Message>)
    requires Replayed(h, a) && Replayed(h, b)
    ensures a == b
    decreases |h|
  {
    if h == [] {
      assert |a| == 0 && |b| == 0;
    } else {
      hide Replayed, ReplayedAs, Answered, CallNames;
      var names := CallNames(CallsOf(h[0]));
      var k := |names|;
      ReplayedParts(h, a);
      ReplayedParts(h, b);
      ReplayedOnce(h[0], a[0], b[0]);
      AnsweredOnce(names, h[1..][..k], a[1..][..k], b[1..][..k]);
      ReplayedUnique(h[1..][k..], a[1..][k..], b[1..][k..]);
      Parted(a, k);
      Parted(b, k);
    }
  }

  /** The projection takes exactly the conversations, and makes of them exactly their replay. */
  lemma NormaliseExactly(c: Codec, h: seq<Message>, out: seq<Message>)
    ensures Normalise(c, h) == Some(out) <==> Conversation(c, h, {}) && Replayed(h, out)
  {
    NormaliseAcceptsConversations(c, h);
    if Normalise(c, h).Some? {
      ScanReplays(c, START, h);
      var made := ScanFrom(c, START, h).value.out;
      assert made[0..] == made && made[|START.out|..] == made;
      if Replayed(h, out) { ReplayedUnique(h, out, made); }
    }
    hide Conversation, Replayed, ScanFrom;
  }

  /** What an answer must be: a standing message for one of the open calls, under no other name than the
      call's, from a tool that exists or saying that it was denied. */
  lemma AnswersExactly(c: Codec, names: map<string, string>, m: Message)
    ensures AnswersOneOf(c, names, m) <==>
            && m.Tool? && MessageStands(c, m) && m.toolCallId in names
            && var name := names[m.toolCallId];
            && (m.name == None || m.name == Some(name)) && (m.toolName == None || m.toolName == Some(name))
            && (name in c.tools || c.isDenied(m.content))
  {
    MessageExactly(c, m);
    hide ValidMessage, MessageStands;
  }

  // ---------------------------------------------------------------- the canonical text of a history

  function CallText(q: Call): string {
    "{\"function\":{\"arguments\":" + J.Quote(q.arguments) + ",\"name\":" + J.Quote(q.name) + "},\"id\":"
        + J.Quote(q.id)
    + ",\"type\":\"function\"}"
  }

  function CallsText(calls: seq<Call>): string {
    if calls == [] then "" else CallText(calls[0]) + (if |calls| > 1 then "," else "") + CallsText(calls[1..])
  }

  /** Sorted names, no blanks; a field that is not there is left out, but the text of a message is `null`. */
  function MessageText(m: Message): string {
    match m
    case Malformed => ""
    case User(content, _) => "{\"content\":" + J.Quote(content) + ",\"role\":\"user\"}"
    case Tool(content, id, name, _, _) =>
      "{\"content\":" + J.Quote(content) + (if name.Some? then ",\"name\":" + J.Quote(name.value) else "")
      + ",\"role\":\"tool\",\"tool_call_id\":" + J.Quote(id) + "}"
    case Assistant(text, calls, _, reasoning, _, _) =>
      "{\"content\":" + (if text.Some? then J.Quote(text.value) else "null")
      + (if reasoning.Some? then ",\"reasoning_content\":" + J.Quote(reasoning.value) else "")
      + ",\"role\":\"assistant\"" + (if calls.Some? then ",\"tool_calls\":[" + CallsText(calls.value) + "]" else "")
          + "}"
  }

  function MessagesText(h: seq<Message>): string {
    if h == [] then "" else MessageText(h[0]) + (if |h| > 1 then "," else "") + MessagesText(h[1..])
  }

  function HistoryText(h: seq<Message>): string { "[" + MessagesText(h) + "]" }

  ghost predicate Printable(s: string) {
    forall i | 0 <= i < |s| :: ' ' <= s[i] || s[i] == '\n' || s[i] == '\r' || s[i] == '\t'
  }

  /** Every text in the message is printable. */
  ghost predicate AllPrintable(m: Message) {
    match m
    case Malformed => true
    case User(content, _) => Printable(content)
    case Tool(content, id, name, _, _) => Printable(content) && Printable(id) && (name.Some? ==> Printable(name.value))
    case Assistant(text, calls, _, reasoning, _, _) =>
      && (text.Some? ==> Printable(text.value)) && (reasoning.Some? ==> Printable(reasoning.value))
      && (calls.Some? ==> forall i | 0 <= i < |calls.value| :: CallPrintable(calls.value[i]))
  }

  ghost predicate CallPrintable(q: Call) { Printable(q.arguments) && Printable(q.name) && Printable(q.id) }

  function Size(s: string): nat { |Utf8(s)| }

  lemma Join2(a: string, b: string)
    ensures Size(a + b) == Size(a) + Size(b)
  {
    Utf8Append(a, b);
  }

  predicate Ascii(s: string) { forall i | 0 <= i < |s| :: s[i] < '\U{80}' }

  /** Text in ASCII takes a byte a character. */
  lemma {:induction false} AsciiSize(s: string)
    requires Ascii(s)
    ensures Size(s) == |s|
    decreases |s|
  {
    if s != "" { AsciiSize(s[1..]); }
  }

  lemma CharSize(c: char)
    requires ' ' <= c || c == '\n' || c == '\r' || c == '\t'
    ensures Size(J.EscapeChar(c)) == EscapedBytes(c)
  {
    var e := J.EscapeChar(c);
    BytesExactly(e);
    if |e| == 2 { AsciiSize(e); } else { assert e == [c] && e[1..] == "" && Utf8Bytes(e) == CharBytes(c); }
  }

  lemma {:induction false} EscapedSize(s: string)
    requires Printable(s)
    ensures Size(J.EscapeText(s)) + 2 == QuotedBytes(s)
    decreases |s|
  {
    if s != "" {
      CharSize(s[0]);
      EscapedSize(s[1..]);
      Join2(J.EscapeChar(s[0]), J.EscapeText(s[1..]));
      hide J.EscapeChar, EscapedBytes, Size;
    }
  }

  lemma QuotedSize(s: string)
    requires Printable(s)
    ensures Size(J.Quote(s)) == QuotedBytes(s)
  {
    EscapedSize(s);
    Join2("\"" + J.EscapeText(s), "\"");
    Join2("\"", J.EscapeText(s));
    AsciiSize("\"");
    hide Size, J.EscapeText, QuotedBytes, Printable;
  }

  lemma Join3(a: string, b: string, c: string)
    ensures Size(a + b + c) == Size(a) + Size(b) + Size(c)
  {
    Join2(a + b, c);
    Join2(a, b);
    hide Size;
  }

  lemma Join5(a: string, b: string, c: string, d: string, e: string)
    ensures Size(a + b + c + d + e) == Size(a) + Size(b) + Size(c) + Size(d) + Size(e)
  {
    Join3(a, b, c);
    Join3(a + b + c, d, e);
    hide Size;
  }

  lemma NoSize()
    ensures Size("") == 0
  {}

  // The fixed parts of the text, apart from the proofs that add them up.

  lemma CallAscii()
    ensures Ascii("{\"function\":{\"arguments\":") && Ascii(",\"name\":") && Ascii("},\"id\":")
            && Ascii(",\"type\":\"function\"}")
  {}

  lemma CallParts()
    ensures Size("{\"function\":{\"arguments\":") == 25 && Size(",\"name\":") == 8 && Size("},\"id\":") == 7
    ensures Size(",\"type\":\"function\"}") == 19
  {
    hide Size, Utf8, Ascii;
    CallAscii();
    AsciiSize("{\"function\":{\"arguments\":");
    AsciiSize(",\"name\":");
    AsciiSize("},\"id\":");
    AsciiSize(",\"type\":\"function\"}");
  }

  lemma ContentAscii()
    ensures Ascii("{\"content\":") && Ascii("}") && Ascii(",\"role\":\"user\"}") && Ascii(",\"role\":\"assistant\"")
            && Ascii("null")
  {}

  lemma ContentParts()
    ensures Size("{\"content\":") == 11 && Size("}") == 1 && Size(",\"role\":\"user\"}") == 15
    ensures Size(",\"role\":\"assistant\"") == 19 && Size("null") == 4
  {
    hide Size, Utf8, Ascii;
    ContentAscii();
    AsciiSize("{\"content\":");
    AsciiSize("}");
    AsciiSize(",\"role\":\"user\"}");
    AsciiSize(",\"role\":\"assistant\"");
    AsciiSize("null");
  }

  lemma ToolAscii()
    ensures Ascii(",\"name\":") && Ascii(",\"role\":\"tool\",\"tool_call_id\":") && Ascii(",\"tool_calls\":[")
            && Ascii("]") && Ascii(",\"reasoning_content\":")
  {}

  lemma ToolParts()
    ensures Size(",\"name\":") == 8 && Size(",\"role\":\"tool\",\"tool_call_id\":") == 30
    ensures Size(",\"tool_calls\":[") == 15 && Size("]") == 1 && Size(",\"reasoning_content\":") == 21 && Size("") == 0
  {
    hide Size, Utf8, Ascii;
    ToolAscii();
    AsciiSize(",\"name\":");
    AsciiSize(",\"role\":\"tool\",\"tool_call_id\":");
    AsciiSize(",\"tool_calls\":[");
    AsciiSize("]");
    AsciiSize(",\"reasoning_content\":");
    NoSize();
  }

  lemma CallSize(q: Call)
    requires CallPrintable(q)
    ensures Size(CallText(q)) == 59 + QuotedBytes(q.arguments) + QuotedBytes(q.name) + QuotedBytes(q.id)
  {
    hide Size, J.Quote, QuotedBytes, Printable;
    CallParts();
    QuotedSize(q.arguments);
    QuotedSize(q.name);
    QuotedSize(q.id);
    Join5("{\"function\":{\"arguments\":", J.Quote(q.arguments), ",\"name\":", J.Quote(q.name), "},\"id\":");
    Join3("{\"function\":{\"arguments\":" + J.Quote(q.arguments) + ",\"name\":" + J.Quote(q.name) + "},\"id\":",
          J.Quote(q.id),
          ",\"type\":\"function\"}");
  }

  lemma CommaSize(more: bool)
    ensures Size(if more then "," else "") == if more then 1 else 0
  {
    if more { AsciiSize(","); }
  }

  lemma {:induction false} CallsSize(calls: seq<Call>)
    requires forall i | 0 <= i < |calls| :: CallPrintable(calls[i])
    ensures Size(CallsText(calls)) == CallsBytes(calls)
    decreases |calls|
  {
    if calls != [] {
      CallSize(calls[0]);
      CallsSize(calls[1..]);
      CommaSize(|calls| > 1);
      Join3(CallText(calls[0]), if |calls| > 1 then "," else "", CallsText(calls[1..]));
      hide Size, CallText, QuotedBytes, CallPrintable;
    }
  }

  lemma UserSize(content: string)
    requires Printable(content)
    ensures Size("{\"content\":" + J.Quote(content) + ",\"role\":\"user\"}") == 26 + QuotedBytes(content)
  {
    hide Size, J.Quote, QuotedBytes, Printable;
    ContentParts();
    QuotedSize(content);
    Join3("{\"content\":", J.Quote(content), ",\"role\":\"user\"}");
  }

  lemma NameSize(name: Option<string>)
    requires name.Some? ==> Printable(name.value)
    ensures Size(if name.Some? then ",\"name\":" + J.Quote(name.value) else "") ==
            if name.Some? then 8 + QuotedBytes(name.value) else 0
  {
    hide Size, J.Quote, QuotedBytes, Printable;
    ToolParts();
    if name.Some? {
      QuotedSize(name.value);
      Join2(",\"name\":", J.Quote(name.value));
    }
  }

  lemma ToolSize(content: string, id: string, name: Option<string>)
    requires Printable(content) && Printable(id) && (name.Some? ==> Printable(name.value))
    ensures var m := Tool(content, id, name, None, None); Size(MessageText(m)) == MessageBytes(m)
  {
    hide Size, J.Quote, QuotedBytes, Printable;
    var middle := if name.Some? then ",\"name\":" + J.Quote(name.value) else "";
    ContentParts();
    ToolParts();
    QuotedSize(content);
    QuotedSize(id);
    NameSize(name);
    Join5("{\"content\":", J.Quote(content), middle, ",\"role\":\"tool\",\"tool_call_id\":", J.Quote(id));
    Join2("{\"content\":" + J.Quote(content) + middle + ",\"role\":\"tool\",\"tool_call_id\":" + J.Quote(id), "}");
  }

  lemma AssistantSize(m: Message)
    requires m.Assistant? && AllPrintable(m)
    ensures Size(MessageText(m)) == MessageBytes(m)
  {
    hide Size, J.Quote, QuotedBytes, Printable, CallsText, CallsBytes, CallPrintable;
    var content := if m.text.Some? then J.Quote(m.text.value) else "null";
    var reasoning := if m.reasoningContent.Some? then ",\"reasoning_content\":" + J.Quote(m.reasoningContent.value)
        else "";
    var calls := if m.calls.Some? then ",\"tool_calls\":[" + CallsText(m.calls.value) + "]" else "";
    ContentParts();
    if m.text.Some? { QuotedSize(m.text.value); }
    ReasoningSize(m.reasoningContent);
    ToolCallsSize(m.calls);
    Join5("{\"content\":", content, reasoning, ",\"role\":\"assistant\"", calls);
    Join2("{\"content\":" + content + reasoning + ",\"role\":\"assistant\"" + calls, "}");
  }

  lemma ReasoningSize(r: Option<string>)
    requires r.Some? ==> Printable(r.value)
    ensures Size(if r.Some? then ",\"reasoning_content\":" + J.Quote(r.value) else "") ==
            if r.Some? then 21 + QuotedBytes(r.value) else 0
  {
    hide Size, J.Quote, QuotedBytes, Printable;
    ToolParts();
    if r.Some? {
      QuotedSize(r.value);
      Join2(",\"reasoning_content\":", J.Quote(r.value));
    }
  }

  lemma ToolCallsSize(calls: Option<seq<Call>>)
    requires calls.Some? ==> forall i | 0 <= i < |calls.value| :: CallPrintable(calls.value[i])
    ensures Size(if calls.Some? then ",\"tool_calls\":[" + CallsText(calls.value) + "]" else "") ==
            if calls.Some? then 16 + CallsBytes(calls.value) else 0
  {
    hide Size, CallsText, CallsBytes, CallPrintable;
    ToolParts();
    if calls.Some? {
      CallsSize(calls.value);
      Join3(",\"tool_calls\":[", CallsText(calls.value), "]");
    }
  }

  lemma MessageSize(m: Message)
    requires AllPrintable(m)
    ensures Size(MessageText(m)) == MessageBytes(m)
  {
    match m {
      case Malformed => NoSize();
      case User(content, _) => UserSize(content);
      case Tool(content, id, name, _, _) => ToolSize(content, id, name);
      case _ => AssistantSize(m);
    }
    hide Size, J.Quote, QuotedBytes, Printable, CallsText, CallsBytes, CallPrintable;
  }

  lemma {:induction false} MessagesSize(h: seq<Message>)
    requires forall i | 0 <= i < |h| :: AllPrintable(h[i])
    ensures Size(MessagesText(h)) == ListBytes(h)
    decreases |h|
  {
    if h != [] {
      MessageSize(h[0]);
      MessagesSize(h[1..]);
      CommaSize(|h| > 1);
      Join3(MessageText(h[0]), if |h| > 1 then "," else "", MessagesText(h[1..]));
      hide Size, MessageText, MessageBytes, AllPrintable;
    }
  }

  /** The size that is limited is that of this text. */
  lemma HistorySize(h: seq<Message>)
    requires forall i | 0 <= i < |h| :: AllPrintable(h[i])
    ensures CanonicalBytes(h) == |Utf8(HistoryText(h))|
  {
    MessagesSize(h);
    AsciiSize("[");
    AsciiSize("]");
    Join3("[", MessagesText(h), "]");
    hide MessagesText, ListBytes, AllPrintable, Utf8;
  }

  // ---------------------------------------------------------------- the whole projection

  lemma StandsPrintable(c: Codec, m: Message, o: Message)
    requires MessageStands(c, m) && !m.Tool? && ReplayedAs(m, o)
    ensures AllPrintable(o)
    ensures forall i | 0 <= i < |CallsOf(m)| :: Printable(CallsOf(m)[i].name)
  {
    hide Utf8;
  }

  lemma AnswerPrintable(c: Codec, names: map<string, string>, m: Message)
    requires m.Tool? && MessageStands(c, m) && m.toolCallId in names && Printable(names[m.toolCallId])
    ensures AllPrintable(Tool(m.content, m.toolCallId, Some(names[m.toolCallId]), None, None))
  {
    hide Utf8;
  }

  lemma {:induction false} NamesPrintable(calls: seq<Call>)
    requires forall i | 0 <= i < |calls| :: Printable(calls[i].name)
    ensures forall id | id in CallNames(calls) :: Printable(CallNames(calls)[id])
    decreases |calls|
  {
    if calls != [] { NamesPrintable(calls[1..]); }
  }

  lemma ConversationParts(c: Codec, h: seq<Message>, seen: set<string>)
    requires h != [] && Conversation(c, h, seen)
    ensures var names := CallNames(CallsOf(h[0]));
            && !h[0].Tool? && ValidMessage(c, h[0]) && |names| <= |h[1..]|
               && AnswerEachOnce(c, names, h[1..][..|names|])
            && Conversation(c, h[1..][|names|..], (if h[0].User? then {} else seen) + names.Keys)
  {
    hide ValidMessage, AnswerEachOnce, DistinctIds, CallNames;
  }

  lemma AnswersPrintable(c: Codec, names: map<string, string>, answers: seq<Message>, out: seq<Message>)
    requires AnswerEachOnce(c, names, answers) && Answered(names, answers, out)
    requires forall id | id in names :: Printable(names[id])
    ensures forall i | 0 <= i < |out| :: AllPrintable(out[i])
  {
    hide ValidMessage, MessageStands, AllPrintable, Printable;
    forall i | 0 <= i < |out| ensures AllPrintable(out[i]) {
      assert AnswersOneOf(c, names, answers[i]);
      AnswersExactly(c, names, answers[i]);
      AnswerPrintable(c, names, answers[i]);
    }
  }

  lemma PartsPrintable(out: seq<Message>, k: nat)
    requires out != [] && k <= |out[1..]| && AllPrintable(out[0])
    requires forall i | 0 <= i < k :: AllPrintable(out[1..][..k][i])
    requires forall i | 0 <= i < |out| - 1 - k :: AllPrintable(out[1..][k..][i])
    ensures forall i | 0 <= i < |out| :: AllPrintable(out[i])
  {
    hide AllPrintable;
    forall i | 0 <= i < |out| ensures AllPrintable(out[i]) {
      if 1 <= i <= k { assert out[1..][..k][i - 1] == out[i]; }
      if i > k { assert out[1..][k..][i - 1 - k] == out[i]; }
    }
  }

  lemma {:induction false} ReplayPrintable(c: Codec, h: seq<Message>, seen: set<string>, out: seq<Message>)
    requires Conversation(c, h, seen) && Replayed(h, out)
    ensures forall i | 0 <= i < |out| :: AllPrintable(out[i])
    decreases |h|
  {
    if h == [] {
      assert |out| == 0;
    } else {
      hide Replayed, Conversation, ReplayedAs, AllPrintable, MessageStands, ValidMessage, Printable, CallNames,
          Answered;
      hide AnswerEachOnce;
      var m, names := h[0], CallNames(CallsOf(h[0]));
      var k := |names|;
      ReplayedParts(h, out);
      ConversationParts(c, h, seen);
      MessageExactly(c, m);
      StandsPrintable(c, m, out[0]);
      NamesPrintable(CallsOf(m));
      AnswersPrintable(c, names, h[1..][..k], out[1..][..k]);
      ReplayPrintable(c, h[1..][k..], (if m.User? then {} else seen) + names.Keys, out[1..][k..]);
      PartsPrintable(out, k);
    }
  }

  /** A transcript is taken exactly when it is a conversation of at most 1,000 messages whose replay, as
      text, has at most 2,000,000 bytes; and what is kept is that replay. */
  lemma RuntimeExactly(c: Codec, h: seq<Message>, out: seq<Message>)
    ensures RuntimeHistory(c, h) == Some(out) <==>
            |h| <= 1000 && Conversation(c, h, {}) && Replayed(h, out) && |Utf8(HistoryText(out))| <= 2_000_000
  {
    NormaliseExactly(c, h, out);
    if Conversation(c, h, {}) && Replayed(h, out) {
      ReplayPrintable(c, h, {}, out);
      HistorySize(out);
    }
    hide Normalise, Conversation, Replayed, Utf8, HistoryText, CanonicalBytes, AllPrintable;
  }

  // ---------------------------------------------------------------- a finished run

  /** The positions of assistant messages from `from` on. */
  ghost function Assistants(h: seq<Message>, from: nat): set<nat> { set i: nat | from <= i < |h| && h[i].Assistant? }

  lemma {:induction false} AssistantsCounted(h: seq<Message>, from: nat)
    requires from <= |h|
    ensures CountAssistant(h[from..]) == |Assistants(h, from)|
    decreases |h| - from
  {
    if from == |h| {
      assert Assistants(h, from) == {};
    } else {
      AssistantsCounted(h, from + 1);
      assert h[from..][1..] == h[from + 1..] && h[from..][0] == h[from];
      assert Assistants(h, from) == (if h[from].Assistant? then {from} else {}) + Assistants(h, from + 1);
    }
  }

  /** The places of calls from message `from` on: message and position in its list. */
  ghost function Places(h: seq<Message>, from: nat): set<(nat, nat)> {
    set i: nat, j: nat | from <= i < |h| && j < |CallsOf(h[i])| :: (i, j)
  }

  lemma {:induction false} RowSize(i: nat, n: nat)
    ensures |set j: nat | j < n :: (i, j)| == n
    decreases n
  {
    if n > 0 {
      RowSize(i, n - 1);
      assert (set j: nat | j < n :: (i, j)) == (set j: nat | j < n - 1 :: (i, j)) + {(i, (n - 1) as nat)};
    } else {
      assert (set j: nat | j < n :: (i, j)) == {};
    }
  }

  lemma {:induction false} CallsCounted(h: seq<Message>, from: nat)
    requires from <= |h|
    ensures CountCalls(h[from..]) == |Places(h, from)|
    decreases |h| - from
  {
    if from == |h| {
      assert Places(h, from) == {};
    } else {
      CallsCounted(h, from + 1);
      assert h[from..][1..] == h[from + 1..] && h[from..][0] == h[from];
      var row := set j: nat | j < |CallsOf(h[from])| :: (from, j);
      RowSize(from, |CallsOf(h[from])|);
      assert Places(h, from) == row + Places(h, from + 1);
      assert row !! Places(h, from + 1);
    }
  }

  /** One turn was added to what was captured: the operator's own message, no other of the operator's, a
      last word without calls, and within the budgets for calls and for answers of the model. */
  ghost predicate OneTurnMore(prior: seq<Message>, h: seq<Message>, message: string, maxToolCalls: nat,
                              maxIterations: nat)
  {
    var n := |prior|;
    && n + 2 <= |h| && h[..n] == prior && h[n] == User(message, None)
    && (forall i | n < i < |h| :: !h[i].User?)
    && h[|h| - 1].Assistant? && (h[|h| - 1].calls.None? || h[|h| - 1].calls.value == [])
    && |Places(h, n)| <= maxToolCalls && |Assistants(h, n)| <= maxIterations
  }

  /** A worker's transcript completes a run exactly when its replay adds one such turn to the replay of
      what the run captured. */
  lemma CompletedExactly(c: Codec, worker: seq<Message>, captured: seq<Message>, message: string, maxToolCalls: nat,
                         maxIterations: nat, h: seq<Message>)
    ensures CompletedHistory(c, worker, captured, message, maxToolCalls, maxIterations) == Some(h) <==>
            && RuntimeHistory(c, worker) == Some(h) && RuntimeHistory(c, captured).Some?
            && OneTurnMore(RuntimeHistory(c, captured).value, h, message, maxToolCalls, maxIterations)
  {
    hide RuntimeHistory, CountCalls, CountAssistant, Places, Assistants;
    if RuntimeHistory(c, worker) == Some(h) && RuntimeHistory(c, captured).Some? {
      var prior := RuntimeHistory(c, captured).value;
      if prior <= h {
        var n := |prior|;
        CallsCounted(h, n);
        AssistantsCounted(h, n);
        assert forall i | 1 <= i < |h[n..]| :: h[n..][i] == h[n + i];
        assert forall i | n < i < |h| :: h[i] == h[n..][i - n];
        if n + 2 <= |h| { assert h[n..][|h| - n - 1] == h[|h| - 1] && h[n..][0] == h[n]; }
      }
    }
  }
}
