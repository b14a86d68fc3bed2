/**
 `createStructuredOutput` (apps/artood/src/structured-output.ts:13-88): which provider output
 line becomes the answer of a run, for Codex and Claude JSON lines and for plain adapters.
 */
module StructuredOutput {
  import opened Common

  /** A parsed JSON value; `Infinite` is a number too large for a double. */
  datatype Json =
    | Null
    | Bool(b: bool)
    | Num(n: real)
    | Infinite
    | Str(s: string)
    | Arr(items: seq<Json>)
    | Obj(fields: map<string, Json>)

  /** A line of output: the value it parses to, or None when it is no JSON. */
  type Line = Option<Json>

  datatype Format = Plain | CodexJson | ClaudeJson

  datatype Usage = Usage(
    input: Option<real>, output: Option<real>, cached: Option<real>, cost: Option<real>, currency: bool,
    session: Option<string>)

  datatype State = State(
    candidate: Option<string>, answer: Option<string>, usage: Option<Usage>, session: Option<string>,
    failure: Option<string>)

  datatype Event = UsageEvent(usage: Usage) | AnswerEvent(text: string)

  const MAX_ANSWER: nat := 200_000
  const MAX_SAFE_INTEGER: real := 9007199254740991.0

  function Initial(): State {
    State(None, None, None, None, None)
  }

  // ---------------------------------------------------------------- reading JSON

  function Get(value: Json, key: string): Option<Json> {
    if value.Obj? && key in value.fields then Some(value.fields[key]) else None
  }

  function GetString(value: Json, key: string): Option<string> {
    var v := Get(value, key);
    if v.Some? && v.value.Str? then Some(v.value.s) else None
  }

  function GetRecord(value: Json, key: string): Json {
    var v := Get(value, key);
    if v.Some? && v.value.Obj? then v.value else Null
  }

  predicate IsSafeCount(v: Json) {
    v.Num? && 0.0 <= v.n <= MAX_SAFE_INTEGER && v.n == v.n.Floor as real
  }

  function Count(value: Json, key: string): Option<real> {
    var v := Get(value, key);
    if v.Some? && IsSafeCount(v.value) then Some(v.value.n) else None
  }

  /** `RunAnswerPayloadSchema`: text of 1 to 200000 characters. */
  function ValidText(value: Json, key: string): Option<string> {
    var t := GetString(value, key);
    if t.Some? && 1 <= |t.value| <= MAX_ANSWER then t else None
  }

  predicate Oversized(value: Json, key: string) {
    var t := GetString(value, key);
    t.Some? && |t.value| > MAX_ANSWER
  }

  // ---------------------------------------------------------------- one line

  /** The usage a record yields; None when it has none of the known fields. */
  function ReadUsage(record: Json, cachedKey: string, cost: Option<Json>, session: Option<string>): Option<Usage> {
    var c := if cost.Some? && cost.value.Num? && cost.value.n >= 0.0 then Some(cost.value.n) else None;
    var u := Usage(Count(record, "input_tokens"), Count(record, "output_tokens"), Count(record, cachedKey), c, c.Some?,
        session);
    if u == Usage(None, None, None, None, false, None) then None else Some(u)
  }

  function SaveUsage(s: State, usage: Option<Usage>): State {
    if usage.Some? then s.(usage := usage) else s
  }

  function ShortId(value: Json, key: string): Option<string> {
    var id := GetString(value, key);
    if id.Some? && |id.value| <= 500 then id else None
  }

  function NoteSession(s: State, id: Option<string>): State {
    if id.Some? then s.(session := id) else s
  }

  function CodexFailure(e: Json): string {
    var nested := GetString(GetRecord(e, "error"), "message");
    var own := GetString(e, "message");
    if nested.Some? then nested.value else if own.Some? then own.value else "provider reported a failed turn"
  }

  predicate AgentMessage(e: Json) {
    GetString(e, "type") == Some("item.completed") && GetString(GetRecord(e, "item"), "type") == Some("agent_message")
  }

  const TOO_LONG := "assistant answer exceeds 200000 characters"

  function Codex(s: State, e: Json): State {
    var kind := GetString(e, "type");
    var t := if kind == Some("thread.started") then NoteSession(s, ShortId(e, "thread_id")) else s;
    var item := GetRecord(e, "item");
    if AgentMessage(e) then
      if ValidText(item, "text").Some? then t.(candidate := ValidText(item, "text"))
      else if Oversized(item, "text") then t.(failure := Some(TOO_LONG)) else t
    else if kind == Some("turn.completed") then
      SaveUsage(t.(answer := t.candidate), ReadUsage(GetRecord(e, "usage"), "cached_input_tokens", None, t.session))
    else if kind == Some("turn.failed") || kind == Some("error") then
      t.(failure := Some(CodexFailure(e)), answer := None)
    else t
  }

  predicate ClaudeFails(e: Json) {
    Get(e, "is_error") == Some(Bool(true))
        || (GetString(e, "subtype").Some? && GetString(e, "subtype") != Some("success"))
  }

  function Claude(s: State, e: Json): State {
    var t := NoteSession(s, ShortId(e, "session_id"));
    if GetString(e, "type") != Some("result") then t else
    var u := SaveUsage(t,
        ReadUsage(GetRecord(e, "usage"), "cache_read_input_tokens", Get(e, "total_cost_usd"), t.session));
    var result := GetString(e, "result");
    if ClaudeFails(e) then
      u.(answer := None,
         failure := if result.Some? && result.value != "" then result else Some("provider reported a failed turn"))
    else if ValidText(e, "result").Some? then u.(answer := ValidText(e, "result"))
    else if Oversized(e, "result") then u.(failure := Some(TOO_LONG)) else u
  }

  predicate OptionalField(p: Json, key: string, ok: bool) {
    Get(p, key).None? || ok
  }

  /** `RunUsagePayloadSchema`. */
  function ParseUsage(p: Json): Option<Usage> {
    var cost, session := Get(p, "cost_usd"), GetString(p, "provider_session_id");
    if && p.Obj?
       && OptionalField(p, "input_tokens", Count(p, "input_tokens").Some?)
       && OptionalField(p, "output_tokens", Count(p, "output_tokens").Some?)
       && OptionalField(p, "cached_input_tokens", Count(p, "cached_input_tokens").Some?)
       && (cost.None? || (cost.value.Num? && cost.value.n >= 0.0))
       && OptionalField(p, "currency", GetString(p, "currency") == Some("USD"))
       && OptionalField(p, "provider_session_id", session.Some? && 1 <= |session.value| <= 500)
    then Some(Usage(Count(p, "input_tokens"), Count(p, "output_tokens"), Count(p, "cached_input_tokens"),
                    if cost.Some? then Some(cost.value.n) else None, Get(p, "currency").Some?, session))
    else None
  }

  function PlainLine(s: State, e: Json): State {
    var payload := if Get(e, "payload").Some? then Get(e, "payload").value else Null;
    if GetString(e, "type") == Some("run.answer") then
      if ValidText(payload, "text").Some? then s.(answer := ValidText(payload, "text")) else s
    else if GetString(e, "type") == Some("run.usage") then SaveUsage(s, ParseUsage(payload)) else s
  }

  function Consume(format: Format, s: State, line: Line): State {
    if line.None? || !line.value.Obj? then s else
    match format
    case CodexJson => Codex(s, line.value)
    case ClaudeJson => Claude(s, line.value)
    case Plain => PlainLine(s, line.value)
  }

  function ConsumeAll(format: Format, lines: seq<Line>): State
    decreases |lines|
  {
    if lines == [] then Initial()
    else Consume(format, ConsumeAll(format, lines[..|lines| - 1]), lines[|lines| - 1])
  }

  function Finish(s: State, success: bool): seq<Event> {
    (if s.usage.Some? then [UsageEvent(s.usage.value)] else [])
    + (if success && s.failure.None? && s.answer.Some? then [AnswerEvent(s.answer.value)] else [])
  }

  // ---------------------------------------------------------------- reading a whole output

  predicate IsEvent(line: Line) {
    line.Some? && line.value.Obj?
  }

  /** A line after which no answer is ever given. */
  predicate Fails(format: Format, line: Line) {
    IsEvent(line) &&
    match format
    case CodexJson =>
      || GetString(line.value, "type") == Some("turn.failed") || GetString(line.value, "type") == Some("error")
      || (AgentMessage(line.value) && Oversized(GetRecord(line.value, "item"), "text"))
    case ClaudeJson =>
      GetString(line.value, "type") == Some("result") && (ClaudeFails(line.value) || Oversized(line.value, "result"))
    case Plain => false
  }

  /** The text a line offers as the answer, if it is one that may. */
  function Offers(format: Format, line: Line): Option<string> {
    if !IsEvent(line) then None else
    match format
    case CodexJson => if AgentMessage(line.value) then ValidText(GetRecord(line.value, "item"), "text") else None
    case ClaudeJson =>
      if GetString(line.value, "type") == Some("result") && !ClaudeFails(line.value)
      then ValidText(line.value, "result") else None
    case Plain =>
      if GetString(line.value, "type") == Some("run.answer") && Get(line.value, "payload").Some?
      then ValidText(Get(line.value, "payload").value, "text") else None
  }

  predicate EndsTurn(line: Line) {
    IsEvent(line) && GetString(line.value, "type") == Some("turn.completed")
  }

  /** `text` is the last one offered before position `end`. */
  ghost predicate LastOffer(format: Format, lines: seq<Line>, end: nat, text: string)
    requires end <= |lines|
  {
    exists i :: 0 <= i < end && Offers(format, lines[i]) == Some(text)
                && forall j | i < j < end :: Offers(format, lines[j]) == None
  }

  ghost predicate NoOffer(format: Format, lines: seq<Line>, end: nat)
    requires end <= |lines|
  {
    forall j | 0 <= j < end :: Offers(format, lines[j]) == None
  }

  ghost predicate IsLastOffer(format: Format, lines: seq<Line>, end: nat, offer: Option<string>)
    requires end <= |lines|
  {
    match offer
    case None => NoOffer(format, lines, end)
    case Some(text) => LastOffer(format, lines, end, text)
  }

  /** `end` is where the last completed turn ends, or 0 when none has. */
  predicate IsLastTurn(lines: seq<Line>, end: nat) {
    && end <= |lines| && (end > 0 ==> EndsTurn(lines[end - 1]))
    && forall j | end <= j < |lines| :: !EndsTurn(lines[j])
  }

  ghost predicate NeverFails(format: Format, lines: seq<Line>) {
    forall i | 0 <= i < |lines| :: !Fails(format, lines[i])
  }

  lemma OfferAppend(format: Format, lines: seq<Line>, line: Line, end: nat, offer: Option<string>)
    requires end <= |lines| && IsLastOffer(format, lines, end, offer)
    ensures IsLastOffer(format, lines + [line], end, offer)
    ensures end == |lines| ==>
      IsLastOffer(format, lines + [line], end + 1, if Offers(format, line).Some? then Offers(format, line) else offer)
  {
    var t := lines + [line];
    assert t[|lines|] == line && forall i | 0 <= i < |lines| :: t[i] == lines[i];
    if offer.Some? {
      var i :| 0 <= i < end && Offers(format, lines[i]) == offer
               && forall j | i < j < end :: Offers(format, lines[j]) == None;
      assert Offers(format, t[i]) == offer;
    }
    if end == |lines| && Offers(format, line).Some? { assert Offers(format, t[end]) == Offers(format, line); }
  }

  /** The offer that counts is unique, so the characterisation below fixes the answer. */
  lemma LastOfferIsUnique(format: Format, lines: seq<Line>, end: nat, a: Option<string>, b: Option<string>)
    requires end <= |lines| && IsLastOffer(format, lines, end, a) && IsLastOffer(format, lines, end, b)
    ensures a == b
  {
    if a.Some? && b.Some? {
      var i :| 0 <= i < end && Offers(format, lines[i]) == a
               && forall j | i < j < end :: Offers(format, lines[j]) == None;
      var k :| 0 <= k < end && Offers(format, lines[k]) == b
               && forall j | k < j < end :: Offers(format, lines[j]) == None;
      assert i == k;
    }
  }

  // ---------------------------------------------------------------- Codex

  lemma CodexStep(s: State, line: Line)
    ensures var t := Consume(CodexJson, s, line);
            && (t.failure.Some? <==> s.failure.Some? || Fails(CodexJson, line))
            && t.candidate == (if Offers(CodexJson, line).Some? then Offers(CodexJson, line) else s.candidate)
            && (t.failure.None? ==> t.answer == if EndsTurn(line) then s.candidate else s.answer)
            && (EndsTurn(line) ==> Offers(CodexJson, line).None?)
  {}

  /** What an output has made of the state: what failed, the last offer, and the last offer of the completed turns. */
  ghost predicate CodexMade(lines: seq<Line>, end: nat, s: State) {
    && IsLastTurn(lines, end)
    && (s.failure.None? <==> NeverFails(CodexJson, lines))
    && IsLastOffer(CodexJson, lines, |lines|, s.candidate)
    && (s.failure.None? ==> IsLastOffer(CodexJson, lines, end, s.answer))
  }

  lemma FailsAppend(format: Format, front: seq<Line>, line: Line)
    ensures NeverFails(format, front + [line]) <==> NeverFails(format, front) && !Fails(format, line)
  {
    var t := front + [line];
    assert t[|front|] == line && forall i | 0 <= i < |front| :: t[i] == front[i];
  }

  lemma CodexMakes(front: seq<Line>, line: Line, end: nat, s: State)
    requires CodexMade(front, end, s)
    ensures CodexMade(front + [line], if EndsTurn(line) then |front| + 1 else end, Consume(CodexJson, s, line))
  {
    CodexStep(s, line);
    FailsAppend(CodexJson, front, line);
    OfferAppend(CodexJson, front, line, |front|, s.candidate);
    if s.failure.None? { OfferAppend(CodexJson, front, line, end, s.answer); }
  }

  lemma {:induction false} CodexState(lines: seq<Line>) returns (end: nat)
    ensures CodexMade(lines, end, ConsumeAll(CodexJson, lines))
    decreases |lines|
  {
    if lines == [] { return 0; }
    var front, line := lines[..|lines| - 1], lines[|lines| - 1];
    assert lines == front + [line];
    end := CodexState(front);
    CodexMakes(front, line, end, ConsumeAll(CodexJson, front));
    if EndsTurn(line) { end := |lines|; }
  }

  lemma LastTurnIsUnique(lines: seq<Line>, a: nat, b: nat)
    requires IsLastTurn(lines, a) && IsLastTurn(lines, b)
    ensures a == b
  {}

  /**
   Codex: the run has an answer exactly when no line failed and a valid agent message precedes the last
   completed turn, and the answer is the last such message.
   */
  lemma CodexAnswer(lines: seq<Line>, end: nat, text: string)
    requires IsLastTurn(lines, end)
    ensures AnswerEvent(text) in Finish(ConsumeAll(CodexJson, lines), true) <==>
            NeverFails(CodexJson, lines) && LastOffer(CodexJson, lines, end, text)
  {
    var last := CodexState(lines);
    LastTurnIsUnique(lines, last, end);
    var s := ConsumeAll(CodexJson, lines);
    if s.failure.None? && LastOffer(CodexJson, lines, end, text) {
      LastOfferIsUnique(CodexJson, lines, end, Some(text), s.answer);
    }
  }

  // ---------------------------------------------------------------- Claude and plain adapters

  lemma DirectStep(format: Format, s: State, line: Line)
    requires format != CodexJson
    ensures var t := Consume(format, s, line);
            && (t.failure.Some? <==> s.failure.Some? || Fails(format, line))
            && (t.failure.None? ==> t.answer == if Offers(format, line).Some? then Offers(format, line) else s.answer)
  {}

  lemma {:induction false} DirectState(format: Format, lines: seq<Line>)
    requires format != CodexJson
    ensures var s := ConsumeAll(format, lines);
            && (s.failure.None? <==> NeverFails(format, lines))
            && (s.failure.None? ==> IsLastOffer(format, lines, |lines|, s.answer))
    decreases |lines|
  {
    if lines != [] {
      var front, line := lines[..|lines| - 1], lines[|lines| - 1];
      assert lines == front + [line];
      DirectState(format, front);
      var s := ConsumeAll(format, front);
      DirectStep(format, s, line);
      FailsAppend(format, front, line);
      if s.failure.None? { OfferAppend(format, front, line, |front|, s.answer); }
    }
  }

  /** Claude and plain adapters: the last valid text is the answer, unless some result failed. */
  lemma DirectAnswer(format: Format, lines: seq<Line>, text: string)
    requires format != CodexJson
    ensures AnswerEvent(text) in Finish(ConsumeAll(format, lines), true) <==>
            NeverFails(format, lines) && LastOffer(format, lines, |lines|, text)
  {
    DirectState(format, lines);
    var s := ConsumeAll(format, lines);
    if s.failure.None? && LastOffer(format, lines, |lines|, text) {
      LastOfferIsUnique(format, lines, |lines|, Some(text), s.answer);
    }
  }

  /**
   A failed run, or one whose process failed, has no answer; whatever is emitted is at most usage, then one
   answer.
   */
  lemma AtMostUsageThenAnswer(format: Format, lines: seq<Line>, success: bool)
    ensures var s := ConsumeAll(format, lines);
            var events := Finish(s, success);
            && |events| <= 2
            && (forall k | 0 <= k < |events| :: events[k].AnswerEvent? ==>
                  k == |events| - 1 && success && NeverFails(format, lines))
            && (|events| == 2 ==> events[0].UsageEvent? && events[1].AnswerEvent?)
  {
    if format == CodexJson { var _ := CodexState(lines); } else { DirectState(format, lines); }
  }

  // ---------------------------------------------------------------- usage

  /** The session id a line names. */
  function NamesSession(format: Format, line: Line): Option<string> {
    if !IsEvent(line) then None else
    match format
    case CodexJson =>
      if GetString(line.value, "type") == Some("thread.started") then ShortId(line.value, "thread_id") else None
    case ClaudeJson => ShortId(line.value, "session_id")
    case Plain => None
  }

  /** The usage a line reports, given the session id known by then. */
  function Reports(format: Format, line: Line, session: Option<string>): Option<Usage> {
    if !IsEvent(line) then None else
    var e := line.value;
    match format
    case CodexJson =>
      if EndsTurn(line) then ReadUsage(GetRecord(e, "usage"), "cached_input_tokens", None, session) else None
    case ClaudeJson =>
      if GetString(e, "type") == Some("result")
      then ReadUsage(GetRecord(e, "usage"), "cache_read_input_tokens", Get(e, "total_cost_usd"), session) else None
    case Plain =>
      if GetString(e, "type") == Some("run.usage") && Get(e, "payload").Some?
      then ParseUsage(Get(e, "payload").value) else None
  }

  /** The session id named last. */
  function SessionAfter(format: Format, lines: seq<Line>): Option<string>
    decreases |lines|
  {
    if lines == [] then None else
    var named := NamesSession(format, lines[|lines| - 1]);
    if named.Some? then named else SessionAfter(format, lines[..|lines| - 1])
  }

  /** What each line reports, one entry a line; the id a line names itself counts for it. */
  function AllReports(format: Format, lines: seq<Line>): (reports: seq<Option<Usage>>)
    ensures |reports| == |lines|
    decreases |lines|
  {
    if lines == [] then [] else
    AllReports(format, lines[..|lines| - 1]) + [Reports(format, lines[|lines| - 1], SessionAfter(format, lines))]
  }

  /** `usage` is the last report, if there is any. */
  ghost predicate IsLastReport<T>(reports: seq<Option<T>>, usage: Option<T>) {
    match usage
    case None => forall k | 0 <= k < |reports| :: reports[k] == None
    case Some(_) =>
      exists k :: 0 <= k < |reports| && reports[k] == usage && forall j | k < j < |reports| :: reports[j] == None
  }

  lemma UsageStep(format: Format, s: State, line: Line)
    ensures var t := Consume(format, s, line);
            var session := if NamesSession(format, line).Some? then NamesSession(format, line) else s.session;
            && t.session == session
            && t.usage == (if Reports(format, line, session).Some? then Reports(format, line, session) else s.usage)
  {}

  lemma ReportAppend<T>(reports: seq<Option<T>>, usage: Option<T>, own: Option<T>)
    requires IsLastReport(reports, usage)
    ensures IsLastReport(reports + [own], if own.Some? then own else usage)
  {
    var t := reports + [own];
    assert t[|reports|] == own;
    if usage.Some? {
      var k :| 0 <= k < |reports| && reports[k] == usage && forall j | k < j < |reports| :: reports[j] == None;
      assert t[k] == usage;
    }
  }

  lemma {:induction false} UsageState(format: Format, lines: seq<Line>)
    ensures var s := ConsumeAll(format, lines);
            s.session == SessionAfter(format, lines) && IsLastReport(AllReports(format, lines), s.usage)
    decreases |lines|
  {
    if lines != [] {
      var front, line := lines[..|lines| - 1], lines[|lines| - 1];
      var s := ConsumeAll(format, front);
      UsageState(format, front);
      UsageStep(format, s, line);
      ReportAppend(AllReports(format, front), s.usage, Reports(format, line, SessionAfter(format, lines)));
    }
  }

  lemma LastReportIsUnique<T>(reports: seq<Option<T>>, a: Option<T>, b: Option<T>)
    requires IsLastReport(reports, a) && IsLastReport(reports, b)
    ensures a == b
  {
    if a.Some? && b.Some? {
      var i :| 0 <= i < |reports| && reports[i] == a && forall j | i < j < |reports| :: reports[j] == None;
      var k :| 0 <= k < |reports| && reports[k] == b && forall j | k < j < |reports| :: reports[j] == None;
      assert i == k;
    }
  }

  /** The usage emitted is the last one reported, with the session id named last before it; success does not matter. */
  lemma LastUsageIsReported(format: Format, lines: seq<Line>, success: bool, usage: Usage)
    ensures UsageEvent(usage) in Finish(ConsumeAll(format, lines), success) <==>
            IsLastReport(AllReports(format, lines), Some(usage))
  {
    UsageState(format, lines);
    var s := ConsumeAll(format, lines);
    if IsLastReport(AllReports(format, lines), Some(usage)) {
      LastReportIsUnique(AllReports(format, lines), Some(usage), s.usage);
    }
  }

  // ---------------------------------------------------------------- the object

  /** How long an offer counts: for Codex up to the last completed turn, else to the end. */
  predicate Counts(format: Format, lines: seq<Line>, end: nat) {
    if format == CodexJson then IsLastTurn(lines, end) else end == |lines|
  }

  /** What the end of an output emits, in terms of its lines. */
  lemma FinishTells(format: Format, lines: seq<Line>, success: bool)
    ensures var events := Finish(ConsumeAll(format, lines), success);
            && (forall usage :: UsageEvent(usage) in events <==> IsLastReport(AllReports(format, lines), Some(usage)))
            && (forall text, end | Counts(format, lines, end) ::
                  AnswerEvent(text) in events <==>
                    success && NeverFails(format, lines) && LastOffer(format, lines, end, text))
  {
    forall usage
      ensures UsageEvent(usage) in Finish(ConsumeAll(format, lines), success) <==>
              IsLastReport(AllReports(format, lines), Some(usage))
    {
      LastUsageIsReported(format, lines, success, usage);
    }
    forall text, end | Counts(format, lines, end)
      ensures AnswerEvent(text) in Finish(ConsumeAll(format, lines), true) <==>
              NeverFails(format, lines) && LastOffer(format, lines, end, text)
    {
      if format == CodexJson { CodexAnswer(lines, end, text); } else { DirectAnswer(format, lines, text); }
    }
  }

  /** The closure of `createStructuredOutput`; the ghost `lines` are those consumed so far. */
  class Output {
    const format: Format
    var candidate: Option<string>
    var answer: Option<string>
    var usage: Option<Usage>
    var sessionId: Option<string>
    var failure: Option<string>
    ghost var lines: seq<Line>

    ghost predicate Valid()
      reads this
    {
      View() == ConsumeAll(format, lines)
    }

    ghost function View(): State
      reads this
    {
      State(candidate, answer, usage, sessionId, failure)
    }

    constructor (f: Format)
      ensures format == f && Valid() && lines == []
    {
      format, lines := f, [];
      candidate, answer, usage, sessionId, failure := None, None, None, None, None;
    }

    method Accept(line: Line)
      requires Valid()
      modifies this
      ensures Valid() && lines == old(lines) + [line]
    {
      assert (lines + [line])[..|lines|] == lines;
      Take(line);
      lines := lines + [line];
    }

    method Take(line: Line)
      modifies this
      ensures View() == Consume(format, old(View()), line) && lines == old(lines)
    {
      if line.None? || !line.value.Obj? { return; }
      match format {
        case CodexJson => AcceptCodex(line.value);
        case ClaudeJson => AcceptClaude(line.value);
        case Plain => AcceptPlain(line.value);
      }
    }

    method Save(u: Option<Usage>)
      modifies this`usage
      ensures View() == SaveUsage(old(View()), u)
    {
      if u.Some? { usage := u; }
    }

    method AcceptCodex(e: Json)
      modifies this
      ensures View() == Codex(old(View()), e) && lines == old(lines)
    {
      var kind, item := GetString(e, "type"), GetRecord(e, "item");
      if kind == Some("thread.started") && ShortId(e, "thread_id").Some? { sessionId := ShortId(e, "thread_id"); }
      if AgentMessage(e) {
        if ValidText(item, "text").Some? { candidate := ValidText(item, "text"); }
        else if Oversized(item, "text") { failure := Some(TOO_LONG); }
      }
      if kind == Some("turn.completed") {
        answer := candidate;
        Save(ReadUsage(GetRecord(e, "usage"), "cached_input_tokens", None, sessionId));
      }
      if kind == Some("turn.failed") || kind == Some("error") {
        failure := Some(CodexFailure(e));
        answer := None;
      }
    }

    method AcceptClaude(e: Json)
      modifies this
      ensures View() == Claude(old(View()), e) && lines == old(lines)
    {
      if ShortId(e, "session_id").Some? { sessionId := ShortId(e, "session_id"); }
      if GetString(e, "type") != Some("result") { return; }
      Save(ReadUsage(GetRecord(e, "usage"), "cache_read_input_tokens", Get(e, "total_cost_usd"), sessionId));
      var result := GetString(e, "result");
      if ClaudeFails(e) {
        failure := if result.Some? && result.value != "" then result else Some("provider reported a failed turn");
        answer := None;
        return;
      }
      if ValidText(e, "result").Some? { answer := ValidText(e, "result"); }
      else if Oversized(e, "result") { failure := Some(TOO_LONG); }
    }

    method AcceptPlain(e: Json)
      modifies this
      ensures View() == PlainLine(old(View()), e) && lines == old(lines)
    {
      var payload := if Get(e, "payload").Some? then Get(e, "payload").value else Null;
      if GetString(e, "type") == Some("run.answer") {
        if ValidText(payload, "text").Some? { answer := ValidText(payload, "text"); }
      } else if GetString(e, "type") == Some("run.usage") {
        Save(ParseUsage(payload));
      }
    }

    /** At most the last usage reported and then the answer of the lines consumed, if the process succeeded. */
    method Emit(success: bool) returns (events: seq<Event>)
      requires Valid()
      ensures forall usage :: UsageEvent(usage) in events <==> IsLastReport(AllReports(format, lines), Some(usage))
      ensures forall text, end | Counts(format, lines, end) ::
                AnswerEvent(text) in events <==>
                    success && NeverFails(format, lines) && LastOffer(format, lines, end, text)
      ensures |events| <= 2 && (|events| == 2 ==> events[0].UsageEvent? && events[1].AnswerEvent?)
    {
      events := Events(success);
      FinishTells(format, lines, success);
    }

    method Events(success: bool) returns (events: seq<Event>)
      ensures events == Finish(View(), success)
    {
      events := [];
      if usage.Some? { events := events + [UsageEvent(usage.value)]; }
      if success && failure.None? && answer.Some? { events := events + [AnswerEvent(answer.value)]; }
    }
  }
}
