/** The strict replay projection of contracts.py: which worker transcripts are accepted,
    what they are normalised to, and how a finished run extends the committed history. */
module History {
  import opened Wrappers

  const MAX_MESSAGES := 1000
  const MAX_HISTORY_BYTES := 2_000_000
  const MAX_IMPORT_BYTES := 131072

  datatype Timestamp = Finite(value: real) | NotFinite

  datatype Call = Call(
    id: string, kind: string, name: string, arguments: string,
    callId: Option<string>, responseItemId: Option<string>)

  /** One message of a transcript. `Malformed` stands for every value the field checks refuse:
      not an object, an unknown role, a missing or an unknown field. */
  datatype Message =
    | User(content: string, timestamp: Option<Timestamp>)
    | Assistant(text: Option<string>, calls: Option<seq<Call>>, reasoning: Option<string>,
                reasoningContent: Option<string>, finishReason: Option<string>, timestamp: Option<Timestamp>)
    | Tool(content: string, toolCallId: string, name: Option<string>, toolName: Option<string>,
           timestamp: Option<Timestamp>)
    | Malformed

  /** The JSON questions the projection asks about opaque text, and the product's tool names. */
  datatype Codec = Codec(isObject: string -> bool, isDenied: string -> bool, tools: set<string>)

  // ---------------------------------------------------------------- text

  predicate Between(c: char, low: char, high: char) { low <= c <= high }

  predicate IsNameChar(c: char) {
    Between(c, 'A', 'Z') || Between(c, 'a', 'z') || Between(c, '0', '9') || c == '_' || c == '-'
  }

  predicate IsName(s: string) {
    |s| > 0 && forall i | 0 <= i < |s| :: IsNameChar(s[i])
  }

  predicate IsText(s: string, maximum: nat, minimum: nat) {
    && minimum <= |s| <= maximum
    && forall i | 0 <= i < |s| :: ' ' <= s[i] || s[i] == '\n' || s[i] == '\r' || s[i] == '\t'
  }

  function CharBytes(c: char): nat {
    if c < '\U{80}' then 1 else if c < '\U{800}' then 2 else if c < '\U{10000}' then 3 else 4
  }

  function Utf8Bytes(s: string): nat {
    if s == "" then 0 else CharBytes(s[0]) + Utf8Bytes(s[1..])
  }

  /** Bytes a character takes inside a JSON string that keeps non-ASCII text as it is. */
  function EscapedBytes(c: char): nat {
    if c == '\"' || c == '\\' || c == '\n' || c == '\r' || c == '\t' then 2
    else if c < ' ' then 6
    else CharBytes(c)
  }

  function QuotedBytes(s: string): nat {
    if s == "" then 2 else EscapedBytes(s[0]) + QuotedBytes(s[1..])
  }

  // ---------------------------------------------------------------- one message

  predicate ValidTimestamp(t: Option<Timestamp>) {
    t.Some? ==> t.value.Finite? && 0.0 <= t.value.value <= 100000000000.0
  }

  predicate ValidCall(c: Codec, call: Call) {
    && IsText(call.id, 200, 1) && IsName(call.id) && call.kind == "function"
    && (call.callId.Some? ==> call.callId.value == call.id)
    && (call.responseItemId.Some? ==> IsText(call.responseItemId.value, 200, 1) && IsName(call.responseItemId.value))
    && IsText(call.name, 100, 1) && IsName(call.name)
    && IsText(call.arguments, 65536, 0) && Utf8Bytes(call.arguments) <= 65536 && c.isObject(call.arguments)
  }

  predicate ValidReasoning(r: Option<string>) {
    r.Some? ==> IsText(r.value, 64000, 0) && Utf8Bytes(r.value) <= 65536
  }

  /** What the projection demands of a message on its own, whatever came before it. */
  predicate ValidMessage(c: Codec, m: Message) {
    match m
    case Malformed => false
    case User(content, timestamp) =>
      ValidTimestamp(timestamp) && IsText(content, 16000, 0) && Utf8Bytes(content) <= 65536
    case Tool(content, toolCallId, _, _, timestamp) =>
      && ValidTimestamp(timestamp) && IsText(content, 262144, 0) && Utf8Bytes(content) <= 262144
      && IsText(toolCallId, 200, 1)
    case Assistant(text, calls, reasoning, reasoningContent, finishReason, timestamp) =>
      && ValidTimestamp(timestamp)
      && (text.None? ==> calls.Some? && calls.value != [])
      && (text.Some? ==> IsText(text.value, 64000, 0) && Utf8Bytes(text.value) <= 65536)
      && (finishReason.Some? ==> IsText(finishReason.value, 100, 0))
      && ValidReasoning(reasoning) && ValidReasoning(reasoningContent)
      && (calls.Some? ==> 0 < |calls.value| <= 12)
      && forall i | 0 <= i < |CallsOf(m)| :: ValidCall(c, CallsOf(m)[i])
  }

  function CallsOf(m: Message): seq<Call> {
    if m.Assistant? && m.calls.Some? then m.calls.value else []
  }

  function PlainCall(call: Call): Call {
    call.(callId := None, responseItemId := None)
  }

  function PlainCalls(calls: seq<Call>): seq<Call> {
    seq(|calls|, i requires 0 <= i < |calls| => PlainCall(calls[i]))
  }

  function PlainAssistant(m: Message): Message
    requires m.Assistant?
  {
    Assistant(m.text, if m.calls.Some? then Some(PlainCalls(m.calls.value)) else None,
              None, m.reasoningContent, None, None)
  }

  // ---------------------------------------------------------------- the scan

  /** `pending` maps an unanswered call id to its tool; `seen` holds the ids of this user turn. */
  datatype Scan = Scan(out: seq<Message>, pending: map<string, string>, seen: set<string>)

  const START := Scan([], map[], {})

  /** Register an assistant message's calls, refusing an id that this turn already used. */
  function OpenCalls(calls: seq<Call>, pending: map<string, string>, seen: set<string>)
    : Option<(map<string, string>, set<string>)>
  {
    if calls == [] then Some((pending, seen))
    else if calls[0].id in seen then None
    else OpenCalls(calls[1..], pending[calls[0].id := calls[0].name], seen + {calls[0].id})
  }

  predicate NamesAgree(m: Message, name: string)
    requires m.Tool?
  {
    && (m.name.Some? ==> m.name.value == name)
    && (m.toolName.Some? ==> m.toolName.value == name)
  }

  function Step(c: Codec, st: Scan, m: Message): Option<Scan> {
    if !ValidMessage(c, m) then None
    else match m
      case Malformed => None
      case User(content, _) =>
        if st.pending != map[] then None
        else Some(Scan(st.out + [User(content, None)], map[], {}))
      case Assistant(_, _, _, _, _, _) =>
        if st.pending != map[] then None
        else (match OpenCalls(CallsOf(m), map[], st.seen)
          case None => None
          case Some(turn) => Some(Scan(st.out + [PlainAssistant(m)], turn.0, turn.1)))
      case Tool(content, id, _, _, _) =>
        if id !in st.pending then None
        else
          var name := st.pending[id];
          if !NamesAgree(m, name) || (name !in c.tools && !c.isDenied(content)) then None
          else Some(Scan(st.out + [Tool(content, id, Some(name), None, None)], st.pending - {id}, st.seen))
  }

  function ScanFrom(c: Codec, st: Scan, h: seq<Message>): Option<Scan>
    decreases |h|
  {
    if h == [] then Some(st)
    else match Step(c, st, h[0])
      case None => None
      case Some(next) => ScanFrom(c, next, h[1..])
  }

  /** The projection without its two size limits. */
  function Normalise(c: Codec, h: seq<Message>): Option<seq<Message>> {
    match ScanFrom(c, START, h)
    case None => None
    case Some(st) => if st.pending == map[] then Some(st.out) else None
  }

  // ---------------------------------------------------------------- size limits

  function CallsBytes(calls: seq<Call>): nat {
    if calls == [] then 0
    else
      59 + QuotedBytes(calls[0].arguments) + QuotedBytes(calls[0].name) + QuotedBytes(calls[0].id)
      + (if |calls| > 1 then 1 else 0) + CallsBytes(calls[1..])
  }

  /** Bytes of a normalised message as canonical JSON: sorted keys, no blanks. */
  function MessageBytes(m: Message): nat {
    match m
    case Malformed => 0
    case User(content, _) => 26 + QuotedBytes(content)
    case Tool(content, id, name, _, _) =>
      11 + QuotedBytes(content) + (if name.Some? then 8 + QuotedBytes(name.value) else 0) + 31 + QuotedBytes(id)
    case Assistant(text, calls, _, reasoningContent, _, _) =>
      31 + (if text.Some? then QuotedBytes(text.value) else 4)
      + (if reasoningContent.Some? then 21 + QuotedBytes(reasoningContent.value) else 0)
      + (if calls.Some? then 16 + CallsBytes(calls.value) else 0)
  }

  function ListBytes(h: seq<Message>): nat {
    if h == [] then 0 else MessageBytes(h[0]) + (if |h| > 1 then 1 else 0) + ListBytes(h[1..])
  }

  function CanonicalBytes(h: seq<Message>): nat { 2 + ListBytes(h) }

  function RuntimeHistory(c: Codec, h: seq<Message>): Option<seq<Message>> {
    if |h| > MAX_MESSAGES then None
    else match Normalise(c, h)
      case None => None
      case Some(out) => if CanonicalBytes(out) <= MAX_HISTORY_BYTES then Some(out) else None
  }

  // ---------------------------------------------------------------- a finished run, an imported chat

  function CountCalls(h: seq<Message>): nat {
    if h == [] then 0 else |CallsOf(h[0])| + CountCalls(h[1..])
  }

  function CountAssistant(h: seq<Message>): nat {
    if h == [] then 0 else (if h[0].Assistant? then 1 else 0) + CountAssistant(h[1..])
  }

  predicate EndsInText(h: seq<Message>) {
    h != [] && h[|h| - 1].Assistant? && CallsOf(h[|h| - 1]) == []
  }

  /** The transcript a worker hands back for one operator message: it must repeat what was
      committed at admission and add one user turn within the run's budgets. */
  function CompletedHistory(c: Codec, worker: seq<Message>, captured: seq<Message>, message: string,
                            maxToolCalls: nat, maxIterations: nat)
    : Option<seq<Message>>
  {
    match (RuntimeHistory(c, worker), RuntimeHistory(c, captured))
    case (Some(messages), Some(prior)) =>
      if !(prior <= messages) then None
      else
        var current := messages[|prior|..];
        if |current| >= 2 && current[0] == User(message, None)
           && (forall i | 1 <= i < |current| :: !current[i].User?)
           && EndsInText(current)
           && CountCalls(current) <= maxToolCalls && CountAssistant(current) <= maxIterations
        then Some(messages) else None
    case _ => None
  }

  predicate ImportMessage(m: Message) {
    match m
    case User(content, timestamp) => timestamp.None? && IsText(content, 16000, 0)
    case Assistant(text, calls, reasoning, reasoningContent, finishReason, timestamp) =>
      && text.Some? && IsText(text.value, 16000, 0)
      && calls.None? && reasoning.None? && reasoningContent.None? && finishReason.None? && timestamp.None?
    case _ => false
  }

  /** A chat brought in from before the runtime: plain user and assistant text only. */
  predicate ValidImport(h: seq<Message>) {
    && |h| <= 100
    && (forall i | 0 <= i < |h| :: ImportMessage(h[i]))
    && CanonicalBytes(h) <= MAX_IMPORT_BYTES
  }

  /** The projection as the loop the source runs: `pending` and `seen` are reassigned message by
      message and the first refusal ends the scan. */
  method ScanHistory(c: Codec, h: seq<Message>) returns (r: Option<seq<Message>>)
    ensures r == RuntimeHistory(c, h)
  {
    if |h| > MAX_MESSAGES { return None; }
    var messages: seq<Message>, pending: map<string, string>, seen: set<string> := [], map[], {};
    for i := 0 to |h|
      invariant ScanFrom(c, START, h) == ScanFrom(c, Scan(messages, pending, seen), h[i..])
    {
      var m := h[i];
      assert h[i..][0] == m && h[i..][1..] == h[i + 1..];
      if !ValidMessage(c, m) { return None; }
      match m
      case User(content, _) =>
        if pending != map[] { return None; }
        seen := {};
        messages := messages + [User(content, None)];
      case Assistant(_, _, _, _, _, _) =>
        if pending != map[] { return None; }
        var calls := CallsOf(m);
        ghost var before := seen;
        for k := 0 to |calls|
          invariant OpenCalls(calls, map[], before) == OpenCalls(calls[k..], pending, seen)
        {
          if calls[k].id in seen { return None; }
          assert calls[k..][1..] == calls[k + 1..];
          pending := pending[calls[k].id := calls[k].name];
          seen := seen + {calls[k].id};
        }
        messages := messages + [PlainAssistant(m)];
      case Tool(content, id, _, _, _) =>
        if id !in pending { return None; }
        var name := pending[id];
        pending := pending - {id};
        if !NamesAgree(m, name) || (name !in c.tools && !c.isDenied(content)) { return None; }
        messages := messages + [Tool(content, id, Some(name), None, None)];
    }
    if pending != map[] || CanonicalBytes(messages) > MAX_HISTORY_BYTES { return None; }
    return Some(messages);
  }
}
