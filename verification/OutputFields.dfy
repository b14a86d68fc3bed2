/**
 What the provider output state machine reads (apps/artood/src/structured-output.ts:20-78), down to the fields of the
 JSON: which lines offer an answer, which fail and why, which number of which field becomes which count, and which
 reason a failed output has in the end.
 */
module OutputFields {
  import opened Common
  import opened StructuredOutput

  /** The object has this field with this value. */
  predicate Field(value: Json, key: string, v: Json) {
    value.Obj? && key in value.fields && value.fields[key] == v
  }

  predicate Text(value: Json, key: string, text: string) {
    Field(value, key, Str(text))
  }

  /** A JSON object on a line of its own. */
  predicate Is(line: Line, e: Json) {
    line == Some(e) && e.Obj?
  }

  predicate Fits(text: string) {
    1 <= |text| <= 200_000
  }

  /** A count: a number that is a non-negative safe integer. */
  predicate CountIs(record: Json, key: string, n: real) {
    Field(record, key, Num(n)) && 0.0 <= n <= 9007199254740991.0 && n == n.Floor as real
  }

  /** The record under a key, or none of it. */
  ghost predicate RecordIs(e: Json, key: string, record: Json) {
    || (record.Obj? && Field(e, key, record))
    || (record == Null && forall fields: map<string, Json> :: !Field(e, key, Obj(fields)))
  }

  lemma RecordsExactly(e: Json, key: string, record: Json)
    ensures RecordIs(e, key, record) <==> GetRecord(e, key) == record
  {
    var got := GetRecord(e, key);
    assert got.Obj? ==> Field(e, key, Obj(got.fields));
  }

  // ---------------------------------------------------------------- answers

  /** Codex: a completed agent message with a text that fits. */
  lemma CodexOffersExactly(line: Line, text: string)
    ensures Offers(CodexJson, line) == Some(text) <==>
              exists e: Json, item: Json ::
                && Is(line, e) && Text(e, "type", "item.completed") && item.Obj? && Field(e, "item", item)
                && Text(item, "type", "agent_message") && Text(item, "text", text) && Fits(text)
  {
    if Offers(CodexJson, line) == Some(text) {
      var e := line.value;
      assert Is(line, e) && Field(e, "item", GetRecord(e, "item"));
    }
  }

  /** Claude: a result that is no error, of subtype success or none, with a text that fits. */
  lemma ClaudeOffersExactly(line: Line, text: string)
    ensures Offers(ClaudeJson, line) == Some(text) <==>
              exists e ::
                && Is(line, e) && Text(e, "type", "result") && !Field(e, "is_error", Bool(true))
                && (forall subtype | Text(e, "subtype", subtype) :: subtype == "success")
                && Text(e, "result", text) && Fits(text)
  {
    if line.Some? && line.value.Obj? {
      var e := line.value;
      assert Is(line, e);
      ClaudeFailsExactly(e);
    }
  }

  lemma ClaudeFailsExactly(e: Json)
    ensures ClaudeFails(e) <==>
              Field(e, "is_error", Bool(true)) || exists subtype :: Text(e, "subtype", subtype) && subtype != "success"
  {
    if GetString(e, "subtype").Some? { assert Text(e, "subtype", GetString(e, "subtype").value); }
  }

  /** Plain adapters: an answer event whose payload has a text that fits. */
  lemma PlainOffersExactly(line: Line, text: string)
    ensures Offers(Plain, line) == Some(text) <==>
              exists e: Json, payload: Json ::
                && Is(line, e) && Text(e, "type", "run.answer") && Field(e, "payload", payload)
                && Text(payload, "text", text) && Fits(text)
  {
    if Offers(Plain, line) == Some(text) {
      var e := line.value;
      assert Is(line, e) && Field(e, "payload", Get(e, "payload").value);
    }
  }

  // ---------------------------------------------------------------- usage

  lemma CountsExactly(record: Json, key: string, n: real)
    ensures Count(record, key) == Some(n) <==> CountIs(record, key, n)
  {}

  /** A usage has exactly the counts of the record under these keys, the cost, and the session. */
  ghost predicate UsageOf(u: Usage, record: Json, cachedKey: string, cost: Option<real>, session: Option<string>) {
    && (forall n :: u.input == Some(n) <==> CountIs(record, "input_tokens", n))
    && (forall n :: u.output == Some(n) <==> CountIs(record, "output_tokens", n))
    && (forall n :: u.cached == Some(n) <==> CountIs(record, cachedKey, n))
    && u.cost == cost && u.currency == cost.Some? && u.session == session
  }

  predicate SaysNothing(u: Usage) {
    u.input == None && u.output == None && u.cached == None && u.cost == None && u.session == None
  }

  lemma ReadsExactly(record: Json, cachedKey: string, cost: Option<Json>, session: Option<string>)
    ensures var paid := if cost.Some? && cost.value.Num? && cost.value.n >= 0.0 then Some(cost.value.n) else None;
            var u := ReadUsage(record, cachedKey, cost, session);
            && (u.Some? ==> UsageOf(u.value, record, cachedKey, paid, session) && !SaysNothing(u.value))
            && (u == None ==>
                  UsageOf(Usage(None, None, None, None, false, None), record, cachedKey, paid, session))
  {}

  /** Codex: the `usage` record of a completed turn, its own key for cached tokens, no cost. */
  lemma CodexReportsExactly(e: Json, record: Json, session: Option<string>)
    requires e.Obj? && RecordIs(e, "usage", record)
    ensures var r := Reports(CodexJson, Some(e), session);
            && (r.Some? ==> Text(e, "type", "turn.completed")
                            && UsageOf(r.value, record, "cached_input_tokens", None, session) && !SaysNothing(r.value))
            && (r == None && Text(e, "type", "turn.completed") ==>
                  UsageOf(Usage(None, None, None, None, false, None), record, "cached_input_tokens", None, session))
  {
    RecordsExactly(e, "usage", record);
    ReadsExactly(record, "cached_input_tokens", None, session);
  }

  ghost predicate CostIs(e: Json, cost: Option<real>) {
    match cost
    case Some(n) => Field(e, "total_cost_usd", Num(n)) && n >= 0.0
    case None => forall n :: Field(e, "total_cost_usd", Num(n)) ==> n < 0.0
  }

  /** Claude: the `usage` record of any result, its own key for cached tokens, and the total cost. */
  lemma ClaudeReportsExactly(e: Json, record: Json, cost: Option<real>, session: Option<string>)
    requires e.Obj? && RecordIs(e, "usage", record) && CostIs(e, cost)
    ensures var r := Reports(ClaudeJson, Some(e), session);
            && (r.Some? ==> Text(e, "type", "result")
                            && UsageOf(r.value, record, "cache_read_input_tokens", cost, session)
                                  && !SaysNothing(r.value))
            && (r == None && Text(e, "type", "result") ==>
                  UsageOf(Usage(None, None, None, None, false, None), record, "cache_read_input_tokens", cost, session))
  {
    RecordsExactly(e, "usage", record);
    ReadsExactly(record, "cache_read_input_tokens", Get(e, "total_cost_usd"), session);
    var paid := Get(e, "total_cost_usd");
    if paid.Some? && paid.value.Num? { assert Field(e, "total_cost_usd", Num(paid.value.n)); }
  }

  /** Plain adapters: a payload counts only as a whole, every field of it being fit, and is then taken as it is. */
  lemma PlainReportsExactly(e: Json, payload: Json, session: Option<string>)
    requires payload.Obj? && Field(e, "payload", payload) && Text(e, "type", "run.usage")
    ensures var r := Reports(Plain, Some(e), session);
            && (r.Some? <==> FitUsage(payload))
            && (r.Some? ==> TakenFrom(r.value, payload))
  {
    assert Reports(Plain, Some(e), session) == ParseUsage(payload);
    FitExactly(payload);
    if ParseUsage(payload).Some? { TakenExactly(payload); }
  }

  /** Every field of the usage is that of the payload. */
  ghost predicate TakenFrom(u: Usage, payload: Json) {
    && (forall n :: u.input == Some(n) <==> CountIs(payload, "input_tokens", n))
    && (forall n :: u.output == Some(n) <==> CountIs(payload, "output_tokens", n))
    && (forall n :: u.cached == Some(n) <==> CountIs(payload, "cached_input_tokens", n))
    && (forall n :: u.cost == Some(n) <==> Field(payload, "cost_usd", Num(n)))
    && (u.currency <==> Text(payload, "currency", "USD"))
    && (forall id :: u.session == Some(id) <==> Text(payload, "provider_session_id", id))
  }

  lemma TakenExactly(payload: Json)
    requires ParseUsage(payload).Some?
    ensures TakenFrom(ParseUsage(payload).value, payload)
  {}

  lemma FitExactly(payload: Json)
    requires payload.Obj?
    ensures ParseUsage(payload).Some? <==> FitUsage(payload)
  {
    FitCountsExactly(payload, "input_tokens");
    FitCountsExactly(payload, "output_tokens");
    FitCountsExactly(payload, "cached_input_tokens");
    var cost, id := Get(payload, "cost_usd"), GetString(payload, "provider_session_id");
    assert cost.Some? && cost.value.Num? ==> Field(payload, "cost_usd", Num(cost.value.n));
    assert id.Some? ==> Text(payload, "provider_session_id", id.value);
  }

  lemma FitCountsExactly(payload: Json, key: string)
    requires payload.Obj?
    ensures OptionalField(payload, key, Count(payload, key).Some?) <==>
              Absent(payload, key) || exists n :: CountIs(payload, key, n)
  {
    var n := Count(payload, key);
    assert n.Some? ==> CountIs(payload, key, n.value);
  }

  predicate Absent(payload: Json, key: string) {
    payload.Obj? && key !in payload.fields
  }

  /** Each field is absent or fit. */
  ghost predicate FitUsage(payload: Json) {
    && payload.Obj?
    && (Absent(payload, "input_tokens") || exists n :: CountIs(payload, "input_tokens", n))
    && (Absent(payload, "output_tokens") || exists n :: CountIs(payload, "output_tokens", n))
    && (Absent(payload, "cached_input_tokens") || exists n :: CountIs(payload, "cached_input_tokens", n))
    && (Absent(payload, "cost_usd") || exists n :: Field(payload, "cost_usd", Num(n)) && n >= 0.0)
    && (Absent(payload, "currency") || Text(payload, "currency", "USD"))
    && (Absent(payload, "provider_session_id")
        || exists id :: Text(payload, "provider_session_id", id) && 1 <= |id| <= 500)
  }

  /** The session id a line names: a started thread's for Codex, any line's for Claude, of at most 500 characters. */
  lemma SessionsExactly(line: Line, id: string)
    ensures NamesSession(CodexJson, line) == Some(id) <==>
              exists e :: Is(line, e) && Text(e, "type", "thread.started") && Text(e, "thread_id", id) && |id| <= 500
    ensures NamesSession(ClaudeJson, line) == Some(id) <==>
              exists e :: Is(line, e) && Text(e, "session_id", id) && |id| <= 500
    ensures NamesSession(Plain, line) == None
  {
    if line.Some? && line.value.Obj? { assert Is(line, line.value); }
  }

  // ---------------------------------------------------------------- the reason of a failure

  const TOO_LONG_MESSAGE := "assistant answer exceeds 200000 characters"
  const UNNAMED := "provider reported a failed turn"

  /** Why a line fails the output, if it does. */
  function Reason(format: Format, line: Line): Option<string> {
    if !IsEvent(line) then None else
    var e := line.value;
    match format
    case Plain => None
    case CodexJson =>
      var item := GetRecord(e, "item");
      if GetString(e, "type") == Some("turn.failed") || GetString(e, "type") == Some("error") then
        var nested, own := GetString(GetRecord(e, "error"), "message"), GetString(e, "message");
        Some(if nested.Some? then nested.value else if own.Some? then own.value else UNNAMED)
      else if GetString(e, "type") == Some("item.completed") && GetString(item, "type") == Some("agent_message")
              && GetString(item, "text").Some? && |GetString(item, "text").value| > 200_000 then Some(TOO_LONG_MESSAGE)
      else None
    case ClaudeJson =>
      var result := GetString(e, "result");
      if GetString(e, "type") != Some("result") then None
      else if Get(e, "is_error") == Some(Bool(true))
              || (GetString(e, "subtype").Some? && GetString(e, "subtype") != Some("success")) then
        Some(if result.Some? && result.value != "" then result.value else UNNAMED)
      else if result.Some? && |result.value| > 200_000 then Some(TOO_LONG_MESSAGE)
      else None
  }

  function Reasons(format: Format, lines: seq<Line>): (rs: seq<Option<string>>)
    ensures |rs| == |lines| && forall k | 0 <= k < |lines| :: rs[k] == Reason(format, lines[k])
  {
    seq(|lines|, k requires 0 <= k < |lines| => Reason(format, lines[k]))
  }

  lemma ReasonStep(format: Format, s: State, line: Line)
    ensures Consume(format, s, line).failure ==
              if Reason(format, line).Some? then Reason(format, line) else s.failure
    ensures Reason(format, line).Some? <==> Fails(format, line)
  {}

  /** The failure reason of an output is that of its last failing line; an output without one has none. */
  lemma {:induction false} LastReasonWins(format: Format, lines: seq<Line>)
    ensures IsLastReport(Reasons(format, lines), ConsumeAll(format, lines).failure)
    decreases |lines|
  {
    if lines != [] {
      var front, line := lines[..|lines| - 1], lines[|lines| - 1];
      var s := ConsumeAll(format, front);
      LastReasonWins(format, front);
      ReasonStep(format, s, line);
      ReportAppend(Reasons(format, front), s.failure, Reason(format, line));
      assert Reasons(format, lines) == Reasons(format, front) + [Reason(format, line)];
    }
  }
}
