/** Five-field UTC cron: the evaluator of contracts.py with its search for the next due minute,
    and the two other acceptors of the same notation. */
module Cron {
  import opened Wrappers

  const MINUTE := 60_000
  const DAY := 86_400_000
  const BOUNDS: seq<(nat, nat)> := [(0, 59), (0, 23), (1, 31), (1, 12), (0, 7)]

  // ---------------------------------------------------------------- text

  predicate IsDigits(s: string) {
    |s| > 0 && forall i | 0 <= i < |s| :: '0' <= s[i] <= '9'
  }

  function Number(s: string): nat
    requires forall i | 0 <= i < |s| :: '0' <= s[i] <= '9'
  {
    if s == "" then 0 else 10 * Number(s[..|s| - 1]) + (s[|s| - 1] as int - '0' as int)
  }

  function ParseNumber(s: string): Option<nat> {
    if IsDigits(s) then Some(Number(s)) else None
  }

  /** The pieces between separators; never empty. */
  function Split(s: string, sep: char): (pieces: seq<string>)
    ensures |pieces| > 0
  {
    if s == "" then [""]
    else
      var rest := Split(s[1..], sep);
      if s[0] == sep then [""] + rest else [[s[0]] + rest[0]] + rest[1..]
  }

  /** The maximal runs of characters that are no blanks. */
  function Words(s: string, blank: char -> bool): seq<string> {
    if s == "" then []
    else
      var rest := Words(s[1..], blank);
      if blank(s[0]) then rest
      else if |s| == 1 || blank(s[1]) || rest == [] then [[s[0]]] + rest
      else [[s[0]] + rest[0]] + rest[1..]
  }

  predicate PythonBlank(c: char) {
    || c == ' ' || '\t' <= c <= '\r' || '\U{1C}' <= c <= '\U{1F}' || c == '\U{85}' || c == '\U{A0}'
    || c == '\U{1680}' || '\U{2000}' <= c <= '\U{200A}' || c == '\U{2028}' || c == '\U{2029}'
    || c == '\U{202F}' || c == '\U{205F}' || c == '\U{3000}'
  }

  predicate ScriptBlank(c: char) {
    || c == ' ' || '\t' <= c <= '\r' || c == '\U{A0}'
    || c == '\U{1680}' || '\U{2000}' <= c <= '\U{200A}' || c == '\U{2028}' || c == '\U{2029}'
    || c == '\U{202F}' || c == '\U{205F}' || c == '\U{3000}' || c == '\U{FEFF}'
  }

  // ---------------------------------------------------------------- one field of the evaluator

  predicate IsFieldChar(c: char) {
    '0' <= c <= '9' || c == '*' || c == ',' || c == '/' || c == '-'
  }

  predicate IsFieldText(s: string) {
    |s| > 0 && forall i | 0 <= i < |s| :: IsFieldChar(s[i])
  }

  /** The step a term carries: 1 when it has none, None when it is unreadable. */
  function StepOf(term: string): Option<nat> {
    var sections := Split(term, '/');
    if |sections| > 2 then None
    else if |sections| == 2 then ParseNumber(sections[1])
    else Some(1)
  }

  /** First and last value of a term, whatever its step. */
  function RangeOf(term: string, low: nat, high: nat): Option<(nat, nat)> {
    var sections := Split(term, '/');
    var base := sections[0];
    if base == "*" then Some((low, high))
    else if '-' in base then
      var edges := Split(base, '-');
      if |edges| != 2 then None
      else (match (ParseNumber(edges[0]), ParseNumber(edges[1]))
        case (Some(begin), Some(end)) => if low <= begin <= end <= high then Some((begin, end)) else None
        case _ => None)
    else (match ParseNumber(base)
      case None => None
      case Some(begin) =>
        var end := if |sections| == 2 then high else begin;
        if low <= begin <= end <= high then Some((begin, end)) else None)
  }

  /** begin, begin + step, ... up to end. */
  function Every(begin: int, end: int, step: nat): set<int>
    requires step > 0
    decreases end - begin
  {
    if begin > end then {} else {begin} + Every(begin + step, end, step)
  }

  function Term(term: string, low: nat, high: nat): Option<set<int>> {
    match (StepOf(term), RangeOf(term, low, high))
    case (Some(step), Some(range)) =>
      if 1 <= step <= high + 1 then Some(Every(range.0, range.1, step)) else None
    case _ => None
  }

  function Terms(terms: seq<string>, low: nat, high: nat): Option<set<int>> {
    if terms == [] then Some({})
    else match (Term(terms[0], low, high), Terms(terms[1..], low, high))
      case (Some(first), Some(rest)) => Some(first + rest)
      case _ => None
  }

  function Field(part: string, low: nat, high: nat): Option<set<int>> {
    if !IsFieldText(part) then None else Terms(Split(part, ','), low, high)
  }

  /** The field parser as its loop over the list terms. */
  method ParseField(part: string, low: nat, high: nat) returns (r: Option<set<int>>)
    ensures r == Field(part, low, high)
  {
    if !IsFieldText(part) { return None; }
    var values: set<int> := {};
    var terms := Split(part, ',');
    assert terms[0..] == terms;
    assert WithValues({}, Terms(terms, low, high)) == Terms(terms, low, high) by {
      if Terms(terms, low, high).Some? { assert {} + Terms(terms, low, high).value == Terms(terms, low, high).value; }
    }
    for i := 0 to |terms|
      invariant Terms(terms, low, high) == WithValues(values, Terms(terms[i..], low, high))
    {
      var step, range := StepOf(terms[i]), RangeOf(terms[i], low, high);
      if step.None? || range.None? || !(1 <= step.value <= high + 1) { return None; }
      assert terms[i..][1..] == terms[i + 1..];
      ghost var first := Every(range.value.0, range.value.1, step.value);
      ghost var rest := Terms(terms[i + 1..], low, high);
      if rest.Some? { assert (values + first) + rest.value == values + (first + rest.value); }
      values := values + Every(range.value.0, range.value.1, step.value);
    }
    return Some(values);
  }

  function WithValues(values: set<int>, r: Option<set<int>>): Option<set<int>> {
    if r.None? then None else Some(values + r.value)
  }

  // ---------------------------------------------------------------- the evaluator

  /** A parsed expression. Only a field that is exactly `*` leaves its day test unrestricted. */
  datatype Cron = Cron(minute: set<int>, hour: set<int>, day: set<int>, month: set<int>, weekday: set<int>,
                       anyDay: bool, anyWeekday: bool)

  predicate IsTextChar(c: char) { ' ' <= c || c == '\n' || c == '\r' || c == '\t' }

  predicate IsExpressionText(s: string) {
    1 <= |s| <= 120 && forall i | 0 <= i < |s| :: IsTextChar(s[i])
  }

  function FoldSunday(values: set<int>): set<int> {
    if 7 in values then values + {0} - {7} else values
  }

  function Parse(expression: string): Option<Cron> {
    if !IsExpressionText(expression) then None else ParseParts(Words(expression, PythonBlank))
  }

  /** Whether a test holds of all five fields, each with its bounds. */
  predicate EachField(fields: seq<string>, test: (string, nat, nat) -> bool) {
    && |fields| == 5
    && test(fields[0], 0, 59) && test(fields[1], 0, 23) && test(fields[2], 1, 31) && test(fields[3], 1, 12)
    && test(fields[4], 0, 7)
  }

  predicate FieldAccepts(part: string, low: nat, high: nat) { Field(part, low, high).Some? }

  function ParseParts(parts: seq<string>): Option<Cron> {
    if !EachField(parts, FieldAccepts) then None
    else
      Some(Cron(Field(parts[0], 0, 59).value, Field(parts[1], 0, 23).value, Field(parts[2], 1, 31).value,
                Field(parts[3], 1, 12).value, FoldSunday(Field(parts[4], 0, 7).value),
                parts[2] == "*", parts[4] == "*"))
  }

  /** Day of month and month of each day since the epoch; weekday, hour and minute need no table. */
  datatype Calendar = Calendar(day: int -> int, month: int -> int)

  /** The epoch was a Thursday, and Sunday counts as 0. */
  function WeekdayOf(day: int): int { (day + 4) % 7 }

  predicate Matches(cron: Cron, cal: Calendar, at: int) {
    var minutes := at / MINUTE;
    var days := at / DAY;
    var dom := cal.day(days) in cron.day;
    var dow := WeekdayOf(days) in cron.weekday;
    && minutes % 60 in cron.minute
    && (minutes / 60) % 24 in cron.hour
    && cal.month(days) in cron.month
    && (if cron.anyDay || cron.anyWeekday then dom && dow else dom || dow)
  }

  function FirstMinuteAfter(after: int): int { after / MINUTE * MINUTE + MINUTE }

  function Ceiling(after: int, end: int): int {
    var horizon := after + 366 * DAY;
    if end < horizon then end else horizon
  }

  function FirstMatch(cron: Cron, cal: Calendar, at: int, ceiling: int): Option<int>
    decreases ceiling - at
  {
    if at >= ceiling then None
    else if Matches(cron, cal, at) then Some(at)
    else FirstMatch(cron, cal, at + MINUTE, ceiling)
  }

  function NextDue(cron: Cron, cal: Calendar, after: int, end: int): Option<int> {
    FirstMatch(cron, cal, FirstMinuteAfter(after), Ceiling(after, end))
  }

  /** The search as the source runs it, minute by minute up to the ceiling. */
  method Next(cron: Cron, cal: Calendar, after: int, end: int) returns (due: Option<int>)
    ensures due == NextDue(cron, cal, after, end)
  {
    var at := FirstMinuteAfter(after);
    var ceiling := Ceiling(after, end);
    while at < ceiling
      invariant NextDue(cron, cal, after, end) == FirstMatch(cron, cal, at, ceiling)
      decreases ceiling - at
    {
      if Matches(cron, cal, at) { return Some(at); }
      at := at + MINUTE;
    }
    return None;
  }

  // ---------------------------------------------------------------- the client's acceptor

  const MAX_SAFE := 9007199254740991

  predicate ClientItem(item: string, low: nat, high: nat) {
    var sections := Split(item, '/');
    var edges := Split(sections[0], '-');
    && |sections| <= 2
    && (sections[0] == "*" || (|edges| <= 2 && forall i | 0 <= i < |edges| :: IsDigits(edges[i])))
    && (|sections| == 2 ==>
          IsDigits(sections[1]) && 0 < Number(sections[1]) <= MAX_SAFE && Number(sections[1]) <= high - low + 1)
    && (sections[0] != "*" ==>
          && (forall i | 0 <= i < |edges| ::
              IsDigits(edges[i]) && Number(edges[i]) <= MAX_SAFE && low <= Number(edges[i]) <= high)
          && (|edges| > 1 ==> Number(edges[0]) <= Number(edges[1])))
  }

  predicate ClientField(field: string, low: nat, high: nat) {
    var items := Split(field, ',');
    forall i | 0 <= i < |items| :: ClientItem(items[i], low, high)
  }

  predicate ClientAccepts(expression: string) {
    var fields := Words(expression, ScriptBlank);
    |expression| <= 100 && EachField(fields, ClientField)
  }

  /** The client check as nested loops with early returns. */
  method ValidateScheduleCron(expression: string) returns (ok: bool)
    ensures ok == ClientAccepts(expression)
  {
    var fields := Words(expression, ScriptBlank);
    if |expression| > 100 || |fields| != 5 { return false; }
    for i := 0 to 5
      invariant forall k | 0 <= k < i :: ClientField(fields[k], BOUNDS[k].0, BOUNDS[k].1)
    {
      var items := Split(fields[i], ',');
      for j := 0 to |items|
        invariant forall k | 0 <= k < j :: ClientItem(items[k], BOUNDS[i].0, BOUNDS[i].1)
      {
        if !ClientItem(items[j], BOUNDS[i].0, BOUNDS[i].1) {
          assert !ClientField(fields[i], BOUNDS[i].0, BOUNDS[i].1);
          return false;
        }
      }
    }
    assert ClientField(fields[0], 0, 59) && ClientField(fields[1], 0, 23) && ClientField(fields[2], 1, 31)
        && ClientField(fields[3], 1, 12) && ClientField(fields[4], 0, 7);
    return true;
  }

  // ---------------------------------------------------------------- the proposal validator

  /** The value of each decimal digit of Unicode: this validator reads them all, not only ASCII. */
  type Digits = char -> Option<nat>

  ghost predicate Decimal(digits: Digits) {
    forall c | c < '\U{80}' :: digits(c) == if '0' <= c <= '9' then Some((c - '0') as nat) else None
  }

  predicate Readable(s: string, digits: Digits) {
    |s| > 0 && forall i | 0 <= i < |s| :: digits(s[i]).Some?
  }

  function ReadNumber(s: string, digits: Digits): nat
    requires forall i | 0 <= i < |s| :: digits(s[i]).Some?
  {
    if s == "" then 0 else 10 * ReadNumber(s[..|s| - 1], digits) + digits(s[|s| - 1]).value
  }

  predicate ProposalElement(element: string, low: nat, high: nat, digits: Digits) {
    if element == "*" then true
    else if |element| >= 2 && element[..2] == "*/" then
      Readable(element[2..], digits) && ReadNumber(element[2..], digits) >= 1
    else
      var sections := Split(element, '/');
      var edges := Split(sections[0], '-');
      && |sections| <= 2 && |edges| <= 2
      && (forall i | 0 <= i < |edges| :: Readable(edges[i], digits) && low <= ReadNumber(edges[i], digits) <= high)
      && (|sections| == 2 ==> Readable(sections[1], digits) && ReadNumber(sections[1], digits) >= 1)
      && (|edges| == 2 ==> ReadNumber(edges[0], digits) <= ReadNumber(edges[1], digits))
  }

  predicate ProposalField(text: string, low: nat, high: nat, digits: Digits) {
    var elements := Split(text, ',');
    forall i | 0 <= i < |elements| :: ProposalElement(elements[i], low, high, digits)
  }

  function ProposalTest(digits: Digits): (string, nat, nat) -> bool {
    (field: string, low: nat, high: nat) => ProposalField(field, low, high, digits)
  }

  predicate ProposalAccepts(expression: string, digits: Digits) {
    var fields := Words(expression, PythonBlank);
    && (fields != [] && fields[0] != "" ==> fields[0][0] != '@')
    && EachField(fields, ProposalTest(digits))
  }
}
