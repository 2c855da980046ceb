/** What the replay projection promises: it composes at a user message, normalising twice is
    normalising once, it accepts exactly the well-formed conversations, and a completed run
    only ever appends to the committed history. */
module HistoryLaws {
  import opened Wrappers
  import opened History

  // ---------------------------------------------------------------- composition

  lemma {:induction false} ScanAppend(c: Codec, st: Scan, a: seq<Message>, b: seq<Message>)
    ensures ScanFrom(c, st, a + b) ==
            match ScanFrom(c, st, a) case None => None case Some(mid) => ScanFrom(c, mid, b)
    decreases |a|
  {
    if a == [] {
      assert a + b == b;
    } else {
      assert (a + b)[0] == a[0] && (a + b)[1..] == a[1..] + b;
      var next := Step(c, st, a[0]);
      if next.Some? { ScanAppend(c, next.value, a[1..], b); }
    }
  }

  function Behind(out: seq<Message>, st: Option<Scan>): Option<Scan> {
    if st.None? then None else Some(st.value.(out := out + st.value.out))
  }

  /** The messages already emitted never influence the rest of the scan. */
  lemma {:induction false} ScanIgnoresOutput(c: Codec, out: seq<Message>, st: Scan, h: seq<Message>)
    ensures ScanFrom(c, st.(out := out + st.out), h) == Behind(out, ScanFrom(c, st, h))
    decreases |h|
  {
    if h != [] {
      var next := Step(c, st, h[0]);
      var lifted := Step(c, st.(out := out + st.out), h[0]);
      assert lifted == Behind(out, next) by {
        if next.Some? {
          assert next.value.out == st.out + [next.value.out[|st.out|]];
          assert out + next.value.out == (out + st.out) + [next.value.out[|st.out|]];
        }
      }
      if next.Some? { ScanIgnoresOutput(c, out, next.value, h[1..]); }
    }
  }

  /** A user message may follow only a closed exchange, and then the scan starts afresh. */
  lemma ScanRestartsAtUser(c: Codec, st: Scan, h: seq<Message>)
    requires h != [] && h[0].User?
    ensures ScanFrom(c, st, h) ==
            if st.pending == map[] then Behind(st.out, ScanFrom(c, START, h)) else None
  {
    if st.pending == map[] {
      var first := Step(c, START, h[0]);
      if first.Some? {
        assert first.value.out == [User(h[0].content, None)];
        assert Step(c, st, h[0]) == Some(first.value.(out := st.out + first.value.out));
        ScanIgnoresOutput(c, st.out, first.value, h[1..]);
      }
    }
  }

  function Joined(a: Option<seq<Message>>, b: Option<seq<Message>>): Option<seq<Message>> {
    if a.Some? && b.Some? then Some(a.value + b.value) else None
  }

  /** Both parts are accepted exactly when the whole is, and the outputs concatenate. */
  lemma NormaliseComposes(c: Codec, h1: seq<Message>, h2: seq<Message>)
    requires h2 != [] && h2[0].User?
    ensures Normalise(c, h1 + h2) == Joined(Normalise(c, h1), Normalise(c, h2))
  {
    ScanAppend(c, START, h1, h2);
    var mid := ScanFrom(c, START, h1);
    if mid.Some? { ScanRestartsAtUser(c, mid.value, h2); }
  }

  // ---------------------------------------------------------------- idempotence

  lemma {:induction false} OpenPlainCalls(calls: seq<Call>, pending: map<string, string>, seen: set<string>)
    ensures OpenCalls(PlainCalls(calls), pending, seen) == OpenCalls(calls, pending, seen)
    decreases |calls|
  {
    if calls != [] && calls[0].id !in seen {
      assert PlainCalls(calls)[1..] == PlainCalls(calls[1..]);
      OpenPlainCalls(calls[1..], pending[calls[0].id := calls[0].name], seen + {calls[0].id});
    }
  }

  /** A normalised message makes the very step its original made. */
  lemma StepOnOutput(c: Codec, st: Scan, m: Message)
    requires Step(c, st, m).Some?
    ensures var next := Step(c, st, m).value;
            |next.out| == |st.out| + 1 && next.out[..|st.out|] == st.out &&
            Step(c, st, next.out[|st.out|]) == Some(next)
  {
    if m.Assistant? {
      var plain := PlainAssistant(m);
      OpenPlainCalls(CallsOf(m), map[], st.seen);
      assert CallsOf(plain) == PlainCalls(CallsOf(m));
      assert PlainCalls(PlainCalls(CallsOf(m))) == PlainCalls(CallsOf(m));
      assert PlainAssistant(plain) == plain;
    }
  }

  lemma {:induction false} ScanOnOutput(c: Codec, st: Scan, h: seq<Message>)
    requires ScanFrom(c, st, h).Some?
    ensures var end := ScanFrom(c, st, h).value;
            |end.out| == |st.out| + |h| && end.out[..|st.out|] == st.out &&
            ScanFrom(c, st, end.out[|st.out|..]) == Some(end)
    decreases |h|
  {
    if h == [] {
      assert st.out[|st.out|..] == [];
    } else {
      StepOnOutput(c, st, h[0]);
      var next := Step(c, st, h[0]).value;
      ScanOnOutput(c, next, h[1..]);
      var end := ScanFrom(c, next, h[1..]).value;
      var tail := end.out[|st.out|..];
      assert end.out[..|next.out|][|st.out|] == end.out[|st.out|];
      assert tail[0] == next.out[|st.out|] && tail[1..] == end.out[|next.out|..];
      assert end.out[..|st.out|] == end.out[..|next.out|][..|st.out|];
    }
  }

  lemma NormaliseIsIdempotent(c: Codec, h: seq<Message>)
    requires Normalise(c, h).Some?
    ensures Normalise(c, Normalise(c, h).value) == Normalise(c, h)
    ensures |Normalise(c, h).value| == |h|
  {
    ScanOnOutput(c, START, h);
    var out := ScanFrom(c, START, h).value.out;
    assert out[|START.out|..] == out;
  }

  /** Stored histories are fixpoints, size limits included. */
  lemma RuntimeHistoryIsIdempotent(c: Codec, h: seq<Message>)
    requires RuntimeHistory(c, h).Some?
    ensures RuntimeHistory(c, RuntimeHistory(c, h).value) == RuntimeHistory(c, h)
  {
    NormaliseIsIdempotent(c, h);
  }

  // ---------------------------------------------------------------- which transcripts are accepted

  /** The calls of a message: which tool each id names. */
  function CallNames(calls: seq<Call>): map<string, string> {
    if calls == [] then map[] else map[calls[0].id := calls[0].name] + CallNames(calls[1..])
  }

  ghost predicate DistinctIds(calls: seq<Call>) {
    calls == [] || (calls[0].id !in CallNames(calls[1..]) && DistinctIds(calls[1..]))
  }

  ghost predicate AnswersOneOf(c: Codec, names: map<string, string>, m: Message) {
    && m.Tool? && ValidMessage(c, m) && m.toolCallId in names && NamesAgree(m, names[m.toolCallId])
    && (names[m.toolCallId] in c.tools || c.isDenied(m.content))
  }

  /** As many messages as calls, each answering one of them, no two the same one. */
  ghost predicate AnswerEachOnce(c: Codec, names: map<string, string>, answers: seq<Message>) {
    && |answers| == |names|
    && (forall j | 0 <= j < |answers| :: AnswersOneOf(c, names, answers[j]))
    && (forall j, k | 0 <= j < k < |answers| ::
          answers[j].Tool? && answers[k].Tool? ==> answers[j].toolCallId != answers[k].toolCallId)
  }

  /** The accepted transcripts as a grammar: a message that is no tool answer, then exactly the
      answers its calls need; call ids are fresh within their user turn. */
  ghost predicate Conversation(c: Codec, h: seq<Message>, seen: set<string>)
    decreases |h|
  {
    h == [] ||
    var m := h[0];
    var calls := CallsOf(m);
    var names := CallNames(calls);
    var turn := if m.User? then {} else seen;
    && !m.Tool? && ValidMessage(c, m)
    && DistinctIds(calls) && names.Keys !! turn
    && |names| <= |h[1..]|
    && AnswerEachOnce(c, names, h[1..][..|names|])
    && Conversation(c, h[1..][|names|..], turn + names.Keys)
  }

  lemma {:induction false} OpenCallsExactly(calls: seq<Call>, pending: map<string, string>, seen: set<string>)
    ensures var r := OpenCalls(calls, pending, seen);
            var names := CallNames(calls);
            && (r.Some? <==> DistinctIds(calls) && names.Keys !! seen)
            && (r.Some? ==> r.value == (pending + names, seen + names.Keys))
    decreases |calls|
  {
    if calls == [] {
      assert pending + CallNames(calls) == pending && seen + CallNames(calls).Keys == seen;
    } else {
      var id, name := calls[0].id, calls[0].name;
      var rest := CallNames(calls[1..]);
      OpenCallsExactly(calls[1..], pending[id := name], seen + {id});
      assert CallNames(calls).Keys == {id} + rest.Keys;
      if id !in seen && OpenCalls(calls[1..], pending[id := name], seen + {id}).Some? {
        assert pending[id := name] + rest == pending + CallNames(calls);
        assert seen + {id} + rest.Keys == seen + CallNames(calls).Keys;
      }
    }
  }

  /** Removing the call a first answer closes leaves the rest to the other answers. */
  lemma AnswerFirst(c: Codec, names: map<string, string>, m: Message, rest: seq<Message>)
    requires AnswersOneOf(c, names, m)
    ensures AnswerEachOnce(c, names, [m] + rest) <==> AnswerEachOnce(c, names - {m.toolCallId}, rest)
  {
    var less := names - {m.toolCallId};
    var all := [m] + rest;
    assert less.Keys == names.Keys - {m.toolCallId};
    assert |less| == |names| - 1;
    if AnswerEachOnce(c, names, all) {
      forall j | 0 <= j < |rest| ensures AnswersOneOf(c, less, rest[j]) {
        assert all[j + 1] == rest[j] && all[0] == m;
      }
      forall j, k | 0 <= j < k < |rest| && rest[j].Tool? && rest[k].Tool?
        ensures rest[j].toolCallId != rest[k].toolCallId
      {
        assert all[j + 1] == rest[j] && all[k + 1] == rest[k];
      }
    }
    if AnswerEachOnce(c, less, rest) {
      forall j | 0 <= j < |all| ensures AnswersOneOf(c, names, all[j]) {
        if j > 0 { assert AnswersOneOf(c, less, rest[j - 1]); }
      }
      forall j, k | 0 <= j < k < |all| && all[j].Tool? && all[k].Tool?
        ensures all[j].toolCallId != all[k].toolCallId
      {
        assert AnswersOneOf(c, less, rest[k - 1]);
      }
    }
  }

  /** With calls open, the scan goes on exactly through one answer for each of them. */
  lemma {:induction false} ScanAnswers(c: Codec, st: Scan, h: seq<Message>) returns (out: seq<Message>)
    ensures var k := |st.pending|;
            (ScanFrom(c, st, h).Some? && ScanFrom(c, st, h).value.pending == map[] ==>
              k <= |h| && AnswerEachOnce(c, st.pending, h[..k]))
    ensures var k := |st.pending|;
            k <= |h| && AnswerEachOnce(c, st.pending, h[..k]) ==>
              ScanFrom(c, st, h) == ScanFrom(c, Scan(out, map[], st.seen), h[k..])
    decreases |h|
  {
    out := st.out;
    var k := |st.pending|;
    if st.pending == map[] {
      assert h[0..] == h && h[..0] == [];
    } else if h != [] {
      var m := h[0];
      var next := Step(c, st, m);
      if m.Tool? && next.Some? {
        assert AnswersOneOf(c, st.pending, m);
        assert next.value.pending.Keys == st.pending.Keys - {m.toolCallId};
        out := ScanAnswers(c, next.value, h[1..]);
        if k <= |h| {
          assert h[1..][k - 1..] == h[k..];
          assert h[..k] == [m] + h[1..][..k - 1];
          AnswerFirst(c, st.pending, m, h[1..][..k - 1]);
        }
      } else {
        assert k <= |h| && AnswerEachOnce(c, st.pending, h[..k]) ==> AnswersOneOf(c, st.pending, h[..k][0]);
      }
    }
  }

  /** Between exchanges, a message that is no answer opens exactly its own calls. */
  lemma StepOpens(c: Codec, st: Scan, m: Message)
    requires st.pending == map[] && !m.Tool? && ValidMessage(c, m)
    ensures var names := CallNames(CallsOf(m));
            var turn := if m.User? then {} else st.seen;
            && (Step(c, st, m).Some? <==> DistinctIds(CallsOf(m)) && names.Keys !! turn)
            && (Step(c, st, m).Some? ==>
                  Step(c, st, m).value.pending == names && Step(c, st, m).value.seen == turn + names.Keys)
  {
    var names := CallNames(CallsOf(m));
    OpenCallsExactly(CallsOf(m), map[], if m.User? then {} else st.seen);
    assert map[] + names == names;
  }

  /** The scan accepts exactly the conversations of the grammar. */
  lemma {:induction false} ScanAcceptsConversations(c: Codec, st: Scan, h: seq<Message>)
    requires st.pending == map[]
    ensures Closed(ScanFrom(c, st, h)) <==> Conversation(c, h, st.seen)
    decreases |h|, 1
  {
    if h != [] {
      var m := h[0];
      var next := Step(c, st, m);
      if !m.Tool? && ValidMessage(c, m) {
        StepOpens(c, st, m);
        if next.Some? { AcceptsAnswers(c, next.value, h[1..]); }
      } else {
        assert next.None?;
      }
    }
  }

  lemma {:induction false} AcceptsAnswers(c: Codec, st: Scan, h: seq<Message>)
    ensures var k := |st.pending|;
            Closed(ScanFrom(c, st, h)) <==>
            k <= |h| && AnswerEachOnce(c, st.pending, h[..k]) && Conversation(c, h[k..], st.seen)
    decreases |h|, 2
  {
    var k := |st.pending|;
    var out := ScanAnswers(c, st, h);
    if k <= |h| {
      ScanAcceptsConversations(c, Scan(out, map[], st.seen), h[k..]);
    }
  }

  ghost predicate Closed(r: Option<Scan>) { r.Some? && r.value.pending == map[] }

  lemma NormaliseAcceptsConversations(c: Codec, h: seq<Message>)
    ensures Normalise(c, h).Some? <==> Conversation(c, h, {})
  {
    ScanAcceptsConversations(c, START, h);
  }

  // ---------------------------------------------------------------- committed histories

  ghost predicate Stored(c: Codec, h: seq<Message>) { RuntimeHistory(c, h) == Some(h) }

  /** A completed run strictly extends what it captured, by one turn that begins with the
      operator's message, and what it commits is again a stored history. */
  lemma CompletedExtends(c: Codec, worker: seq<Message>, captured: seq<Message>, message: string,
                         maxToolCalls: nat, maxIterations: nat)
    requires Stored(c, captured)
    requires CompletedHistory(c, worker, captured, message, maxToolCalls, maxIterations).Some?
    ensures var h := CompletedHistory(c, worker, captured, message, maxToolCalls, maxIterations).value;
            captured < h && h[|captured|] == User(message, None) && Stored(c, h)
  {
    RuntimeHistoryIsIdempotent(c, worker);
  }

  lemma {:induction false} ScanImport(c: Codec, out: seq<Message>, seen: set<string>, h: seq<Message>)
    requires forall i | 0 <= i < |h| :: ImportMessage(h[i])
    ensures exists last :: ScanFrom(c, Scan(out, map[], seen), h) == Some(Scan(out + h, map[], last))
    decreases |h|
  {
    if h == [] {
      assert out + h == out;
      assert ScanFrom(c, Scan(out, map[], seen), h) == Some(Scan(out + h, map[], seen));
    } else {
      var m := h[0];
      Utf8AtMostFour(if m.User? then m.content else m.text.value);
      var next := Step(c, Scan(out, map[], seen), m).value;
      assert next.pending == map[] && next.out == out + [m];
      ScanImport(c, next.out, next.seen, h[1..]);
      assert out + [m] + h[1..] == out + h;
    }
  }

  lemma {:induction false} Utf8AtMostFour(s: string)
    ensures Utf8Bytes(s) <= 4 * |s|
  {
    if s != "" { Utf8AtMostFour(s[1..]); }
  }

  /** Every import the wire accepts is already in stored form. */
  lemma ImportIsStored(c: Codec, h: seq<Message>)
    requires ValidImport(h)
    ensures Stored(c, h)
  {
    ScanImport(c, [], {}, h);
    assert [] + h == h;
  }
}
