/**
 One run's stream on the node (apps/artood/src/node-client.ts:698-802): what it sends, in
 which order, and what it has reported about the retained worktree, for every sequence of
 adapter events and every pattern of failing sends and stops.
 */
module NodeStream {
  import opened Common

  datatype Outcome = Completed | Failed | Cancelled | IncompleteDelivery | Unconfirmed

  type Phase = o: Outcome | o == Completed || o == Failed || o == Cancelled witness Completed

  /** What the adapter yields: a terminal lifecycle event, any other event, or something that makes the loop throw. */
  datatype Item = Terminal(phase: Phase) | Ordinary | Breaks

  /** What the stream does, with the outcome of each attempt; every run event takes a sequence. */
  datatype Entry =
    | Ack(ok: bool)
    | Retained(outcome: Outcome, sequence: nat, ok: bool)
    | Diagnostic(outcome: Outcome, sequence: nat, ok: bool)
    | Forwarded(item: Item, sequence: nat, ok: bool)
    | FailedLifecycle(sequence: nat, ok: bool)
    | Stop(ok: bool)
    | ClosedElsewhere

  /** A worktree plan or not, typed retention or the legacy diagnostic, an owned (physical) run or a legacy one. */
  datatype Mode = Mode(worktree: bool, typed: bool, physical: bool)

  /** The world's answers: does attempt `k` succeed, and has another handler closed the run by then. */
  datatype Env = Env(succeeds: nat -> bool, closes: nat -> bool)

  datatype State = State(sequence: nat, reported: Option<Outcome>, stopAttempted: bool, closed: bool, log: seq<Entry>)

  /** The state after a step, and whether it threw. */
  datatype Result = Result(state: State, threw: bool)

  function Initial(): State {
    State(0, None, false, false, [])
  }

  predicate Succeeds(env: Env, s: State) {
    (env.succeeds)(|s.log|)
  }

  // ---------------------------------------------------------------- the stream as a function

  function RunEvent(s: State, e: Entry): State {
    s.(sequence := s.sequence + 1, log := s.log + [e])
  }

  /** Only completed delivery can need one later correction. */
  predicate AlreadyReported(s: State, outcome: Outcome) {
    s.reported.Some? && !(s.reported == Some(Completed) && outcome == IncompleteDelivery)
  }

  function SendDiagnostic(m: Mode, env: Env, s: State, outcome: Outcome): Result {
    var ok := Succeeds(env, s);
    var d := RunEvent(s, Diagnostic(outcome, s.sequence, ok));
    if !m.typed && !ok && outcome == Completed then Result(d.(reported := None), true) else Result(d, false)
  }

  function Report(m: Mode, env: Env, s: State, outcome: Outcome): Result {
    if !m.worktree || AlreadyReported(s, outcome) then Result(s, false) else
    var r := s.(reported := Some(outcome));
    if !m.typed then SendDiagnostic(m, env, r, outcome) else
    var ok := Succeeds(env, r);
    var t := RunEvent(r, Retained(outcome, r.sequence, ok));
    if !ok && outcome == Completed then Result(t, true) else SendDiagnostic(m, env, t, outcome)
  }

  /** `run.stop` for the same run may have confirmed closure while this handler waited. */
  function Notice(env: Env, s: State): State {
    if !s.closed && (env.closes)(|s.log|) then s.(closed := true, log := s.log + [ClosedElsewhere]) else s
  }

  function StopPhysical(env: Env, s: State): Result {
    var n := Notice(env, s);
    if n.closed then Result(n, false)
    else Result(n.(closed := Succeeds(env, n), log := n.log + [Stop(Succeeds(env, n))]), !Succeeds(env, n))
  }

  function StopLegacy(env: Env, s: State): Result {
    Result(s.(log := s.log + [Stop(Succeeds(env, s))]), !Succeeds(env, s))
  }

  function StopFirst(m: Mode, env: Env, s: State): Result {
    if m.physical then StopPhysical(env, s.(stopAttempted := true)) else Result(s, false)
  }

  function Forward(env: Env, s: State, item: Item): Result {
    Result(RunEvent(s, Forwarded(item, s.sequence, Succeeds(env, s))), !Succeeds(env, s))
  }

  function Handle(m: Mode, env: Env, s: State, item: Item): Result {
    match item
    case Breaks => Result(s, true)
    case Ordinary => Forward(env, s, item)
    case Terminal(phase) =>
      var a := StopFirst(m, env, s);
      if a.threw then a else
      var b := Report(m, env, a.state, phase);
      if b.threw then b else Forward(env, b.state, item)
  }

  function Consume(m: Mode, env: Env, s: State, items: seq<Item>): Result
    decreases items
  {
    if items == [] then Result(s, false) else
    var r := Handle(m, env, s, items[0]);
    if r.threw then r else Consume(m, env, r.state, items[1..])
  }

  /** A delivery error: make sure the writer is gone before anything reports a failure. */
  function StopAfterError(m: Mode, env: Env, s: State): Result {
    if !m.physical then StopLegacy(env, s)
    else if !s.stopAttempted then StopPhysical(env, s.(stopAttempted := true))
    else var n := Notice(env, s); Result(n, !n.closed)
  }

  function ReportFailure(m: Mode, env: Env, s: State): State {
    var r := Report(m, env, s, IncompleteDelivery).state;
    RunEvent(r, FailedLifecycle(r.sequence, Succeeds(env, r)))
  }

  function Catch(m: Mode, env: Env, s: State): State {
    var r := StopAfterError(m, env, s);
    if r.threw then r.state else ReportFailure(m, env, r.state)
  }

  function StopAtEnd(m: Mode, env: Env, s: State): State {
    if !m.physical then s else
    var n := Notice(env, s);
    if !n.closed && !n.stopAttempted then StopPhysical(env, n).state else n
  }

  function Finally(m: Mode, env: Env, s: State): State {
    Report(m, env, StopAtEnd(m, env, s), Unconfirmed).state
  }

  /** The `try` block: acknowledge the start, then forward. */
  function Attempt(m: Mode, env: Env, items: seq<Item>): Result {
    var ok := Succeeds(env, Initial());
    var a := Initial().(log := [Ack(ok)]);
    if !ok then Result(a, true) else Consume(m, env, a, items)
  }

  /** The `catch` and `finally` blocks. */
  function WindUp(m: Mode, env: Env, r: Result): State {
    Finally(m, env, if r.threw then Catch(m, env, r.state) else r.state)
  }

  function Stream(m: Mode, env: Env, items: seq<Item>): State {
    WindUp(m, env, Attempt(m, env, items))
  }

  // ---------------------------------------------------------------- readings of the log

  predicate Reports(m: Mode, e: Entry) {
    if m.typed then e.Retained? else e.Diagnostic?
  }

  /** The outcomes reported, in order: typed events, or diagnostics in the legacy protocol. */
  function Reported(m: Mode, log: seq<Entry>): seq<Outcome> {
    if log == [] then [] else
    var last := log[|log| - 1];
    Reported(m, log[..|log| - 1]) + (if Reports(m, last) then [last.outcome] else [])
  }

  predicate Sequenced(e: Entry) {
    !e.Ack? && !e.Stop? && !e.ClosedElsewhere?
  }

  function CountSequenced(log: seq<Entry>): nat {
    if log == [] then 0
    else CountSequenced(log[..|log| - 1]) + (if Sequenced(log[|log| - 1]) then 1 else 0)
  }

  /** The server's receipt of the typed completed report arrived. */
  predicate HasReceipt(log: seq<Entry>) {
    exists k :: 0 <= k < |log| && log[k].Retained? && log[k].outcome == Completed && log[k].ok
  }

  predicate Stopped(log: seq<Entry>) {
    exists k :: 0 <= k < |log| && (log[k] == Stop(true) || log[k] == ClosedElsewhere)
  }

  predicate IsTerminal(e: Entry) {
    (e.Forwarded? && e.item.Terminal?) || e.FailedLifecycle?
  }

  function FirstTerminal(items: seq<Item>): Option<Phase> {
    if items == [] || items[0].Breaks? then None
    else if items[0].Terminal? then Some(items[0].phase)
    else FirstTerminal(items[1..])
  }

  lemma ReceiptAppend(log: seq<Entry>, e: Entry)
    ensures HasReceipt(log + [e]) <==> HasReceipt(log) || (e.Retained? && e.outcome == Completed && e.ok)
  {
    var t := log + [e];
    assert t[|log|] == e;
    if HasReceipt(log) {
      var k :| 0 <= k < |log| && log[k].Retained? && log[k].outcome == Completed && log[k].ok;
      assert t[k] == log[k];
    }
  }

  lemma StoppedAppend(log: seq<Entry>, e: Entry)
    ensures Stopped(log + [e]) <==> Stopped(log) || e == Stop(true) || e == ClosedElsewhere
  {
    var t := log + [e];
    assert t[|log|] == e;
    if Stopped(log) {
      var k :| 0 <= k < |log| && (log[k] == Stop(true) || log[k] == ClosedElsewhere);
      assert t[k] == log[k];
    }
  }

  lemma ReportedAppend(m: Mode, log: seq<Entry>, e: Entry)
    ensures Reported(m, log + [e]) == Reported(m, log) + (if Reports(m, e) then [e.outcome] else [])
    ensures CountSequenced(log + [e]) == CountSequenced(log) + (if Sequenced(e) then 1 else 0)
    ensures HasReceipt(log + [e]) <==> HasReceipt(log) || (e.Retained? && e.outcome == Completed && e.ok)
    ensures Stopped(log + [e]) <==> Stopped(log) || e == Stop(true) || e == ClosedElsewhere
    ensures forall k | 0 <= k <= |log| :: (log + [e])[..k] == log[..k]
  {
    var t := log + [e];
    assert t[..|t| - 1] == log && log[..|log|] == log;
    ReceiptAppend(log, e);
    StoppedAppend(log, e);
  }

  lemma {:induction false} ReceiptIsReported(m: Mode, log: seq<Entry>)
    requires m.typed && HasReceipt(log)
    ensures Completed in Reported(m, log)
  {
    var k :| 0 <= k < |log| && log[k].Retained? && log[k].outcome == Completed && log[k].ok;
    if k < |log| - 1 {
      assert log[..|log| - 1][k] == log[k];
      ReceiptIsReported(m, log[..|log| - 1]);
    }
  }

  // ---------------------------------------------------------------- the invariant of the log

  /** What holds of entry `k` given the entries before it; `first` is the first terminal phase seen so far. */
  ghost predicate EntryOk(m: Mode, log: seq<Entry>, k: nat, first: Option<Phase>)
    requires k < |log|
  {
    var e, before := log[k], log[..k];
    && (Sequenced(e) ==> e.sequence == CountSequenced(before))
    && (IsTerminal(e) && m.worktree ==> Reported(m, before) != [])
    && (e.FailedLifecycle? ==> Stopped(before))
    && (e.Forwarded? && e.item.Terminal? ==> first.Some? && (m.physical ==> Stopped(before)))
    && (e.Forwarded? && e.item.Terminal? && m.worktree ==> Reported(m, before) == [first.value])
    && (e.Forwarded? && e.item.Terminal? && m.worktree && m.typed && first == Some(Completed) ==> HasReceipt(before))
  }

  ghost predicate LogOk(m: Mode, s: State, first: Option<Phase>) {
    && s.sequence == CountSequenced(s.log)
    && (m.physical ==> (s.closed <==> Stopped(s.log)))
    && (forall k | 0 <= k < |s.log| :: EntryOk(m, s.log, k, first))
  }

  /** While the loop runs: nothing reported before the first terminal event, exactly its phase afterwards. */
  ghost predicate Running(m: Mode, s: State, first: Option<Phase>) {
    && LogOk(m, s, first)
    && (m.worktree ==> s.reported == first)
    && (m.worktree ==> Reported(m, s.log) == if first.None? then [] else [first.value])
    && (m.worktree && m.typed && first == Some(Completed) ==> HasReceipt(s.log))
  }

  /** Once the loop has thrown: at most the first report, possibly failed. */
  ghost predicate Broken(m: Mode, s: State, first: Option<Phase>) {
    && LogOk(m, s, first)
    && (m.worktree ==>
          || (s.reported.None? && Reported(m, s.log) == [])
          || (s.reported.Some? && Reported(m, s.log) == [s.reported.value])
          || (!m.typed && s.reported.None? && Reported(m, s.log) == [Completed]))
  }

  lemma AppendKeepsLog(m: Mode, s: State, t: State, e: Entry, first: Option<Phase>)
    requires LogOk(m, s, first) && t.log == s.log + [e]
    requires t.sequence == s.sequence + (if Sequenced(e) then 1 else 0) && (Sequenced(e) ==> e.sequence == s.sequence)
    requires m.physical ==> (t.closed <==> s.closed || e == Stop(true) || e == ClosedElsewhere)
    requires IsTerminal(e) && m.worktree ==> Reported(m, s.log) != []
    requires e.FailedLifecycle? ==> Stopped(s.log)
    requires e.Forwarded? && e.item.Terminal? ==> first.Some? && (m.physical ==> Stopped(s.log))
    requires e.Forwarded? && e.item.Terminal? && m.worktree ==> Reported(m, s.log) == [first.value]
    requires e.Forwarded? && e.item.Terminal? && m.worktree && m.typed && first == Some(Completed) ==> HasReceipt(s.log)
    ensures LogOk(m, t, first)
  {
    ReportedAppend(m, s.log, e);
    assert s.log[..|s.log|] == s.log;
    forall k | 0 <= k < |t.log| ensures EntryOk(m, t.log, k, first) {
      if k < |s.log| { assert EntryOk(m, s.log, k, first); }
    }
  }

  /** The first terminal event fixes `first`: no entry forwarded before it was terminal. */
  lemma FixFirst(m: Mode, s: State, first: Option<Phase>, phase: Phase)
    requires LogOk(m, s, first)
    ensures LogOk(m, s, if first.None? then Some(phase) else first)
  {
    var now := if first.None? then Some(phase) else first;
    forall k | 0 <= k < |s.log| ensures EntryOk(m, s.log, k, now) {
      assert EntryOk(m, s.log, k, first);
    }
  }

  lemma DiagnosticKeepsLog(m: Mode, env: Env, s: State, outcome: Outcome, first: Option<Phase>)
    requires LogOk(m, s, first)
    ensures var r := SendDiagnostic(m, env, s, outcome);
            && LogOk(m, r.state, first)
            && Reported(m, r.state.log) == Reported(m, s.log) + (if m.typed then [] else [outcome])
            && (HasReceipt(r.state.log) <==> HasReceipt(s.log)) && (Stopped(r.state.log) <==> Stopped(s.log))
            && r.state.closed == s.closed && r.state.stopAttempted == s.stopAttempted
  {
    var e := Diagnostic(outcome, s.sequence, Succeeds(env, s));
    AppendKeepsLog(m, s, SendDiagnostic(m, env, s, outcome).state, e, first);
    ReportedAppend(m, s.log, e);
  }

  ghost predicate ReportAdded(m: Mode, env: Env, s: State, outcome: Outcome, first: Option<Phase>) {
    var r := Report(m, env, s, outcome);
    var t := r.state;
    && LogOk(m, t, first) && (Stopped(t.log) <==> Stopped(s.log)) && t.closed == s.closed
    && t.stopAttempted == s.stopAttempted
    && (HasReceipt(s.log) ==> HasReceipt(t.log))
    && (if !m.worktree || AlreadyReported(s, outcome) then r == Result(s, false)
        else && Reported(m, t.log) == Reported(m, s.log) + [outcome]
             && t.reported == (if r.threw && !m.typed then None else Some(outcome))
             && (r.threw ==> outcome == Completed)
             && (!r.threw && m.typed && outcome == Completed ==> HasReceipt(t.log)))
  }

  /** In typed mode the report itself comes first; the diagnostic is optional. */
  lemma TypedReportAdds(m: Mode, env: Env, s: State, outcome: Outcome, first: Option<Phase>)
    requires LogOk(m, s, first) && m.worktree && m.typed && !AlreadyReported(s, outcome)
    ensures ReportAdded(m, env, s, outcome, first)
  {
    var r := s.(reported := Some(outcome));
    var e := Retained(outcome, r.sequence, Succeeds(env, r));
    var t := RunEvent(r, e);
    AppendKeepsLog(m, s, t, e, first);
    ReportedAppend(m, s.log, e);
    DiagnosticKeepsLog(m, env, t, outcome, first);
  }

  /** What one report call adds. */
  lemma ReportAdds(m: Mode, env: Env, s: State, outcome: Outcome, first: Option<Phase>)
    requires LogOk(m, s, first)
    ensures ReportAdded(m, env, s, outcome, first)
  {
    if m.worktree && !AlreadyReported(s, outcome) {
      var r := s.(reported := Some(outcome));
      if m.typed {
        TypedReportAdds(m, env, s, outcome, first);
      } else {
        assert LogOk(m, r, first);
        DiagnosticKeepsLog(m, env, r, outcome, first);
      }
    }
  }

  lemma ForwardKeepsLog(m: Mode, env: Env, s: State, item: Item, first: Option<Phase>)
    requires Running(m, s, first) && (item.Terminal? ==> first.Some? && (m.physical ==> Stopped(s.log)))
    ensures Running(m, Forward(env, s, item).state, first)
  {
    var e := Forwarded(item, s.sequence, Succeeds(env, s));
    AppendKeepsLog(m, s, Forward(env, s, item).state, e, first);
    ReportedAppend(m, s.log, e);
  }

  lemma NoticeKeepsLog(m: Mode, env: Env, s: State, first: Option<Phase>)
    requires m.physical && LogOk(m, s, first)
    ensures var n := Notice(env, s);
            && LogOk(m, n, first) && Reported(m, n.log) == Reported(m, s.log) && n.reported == s.reported
            && (HasReceipt(s.log) ==> HasReceipt(n.log)) && n.stopAttempted == s.stopAttempted
  {
    if Notice(env, s) != s {
      AppendKeepsLog(m, s, Notice(env, s), ClosedElsewhere, first);
      ReportedAppend(m, s.log, ClosedElsewhere);
    }
  }

  lemma StopKeepsLog(m: Mode, env: Env, s: State, first: Option<Phase>)
    requires LogOk(m, s, first)
    ensures var r := if m.physical then StopPhysical(env, s) else StopLegacy(env, s);
            && LogOk(m, r.state, first) && Reported(m, r.state.log) == Reported(m, s.log)
                  && r.state.reported == s.reported
            && (HasReceipt(s.log) ==> HasReceipt(r.state.log)) && (!r.threw ==> Stopped(r.state.log))
  {
    var n := if m.physical then Notice(env, s) else s;
    if m.physical { NoticeKeepsLog(m, env, s, first); }
    if !m.physical || !n.closed {
      var e := Stop(Succeeds(env, n));
      AppendKeepsLog(m, n, (if m.physical then StopPhysical(env, s) else StopLegacy(env, s)).state, e, first);
      ReportedAppend(m, n.log, e);
    }
  }

  // ---------------------------------------------------------------- the loop

  function Next(first: Option<Phase>, item: Item): Option<Phase> {
    if first.None? && item.Terminal? then Some(item.phase) else first
  }

  lemma StopFirstKeeps(m: Mode, env: Env, s: State, first: Option<Phase>)
    requires Running(m, s, first)
    ensures var a := StopFirst(m, env, s);
            Running(m, a.state, first) && (m.physical && !a.threw ==> Stopped(a.state.log))
  {
    if m.physical {
      assert LogOk(m, s.(stopAttempted := true), first);
      StopKeepsLog(m, env, s.(stopAttempted := true), first);
    }
  }

  lemma RunningIsBroken(m: Mode, s: State, first: Option<Phase>)
    requires Running(m, s, first)
    ensures Broken(m, s, first)
  {}

  lemma HandleKeeps(m: Mode, env: Env, s: State, item: Item, first: Option<Phase>)
    requires Running(m, s, first)
    ensures var r, now := Handle(m, env, s, item), Next(first, item);
            (!r.threw ==> Running(m, r.state, now)) && Broken(m, r.state, now)
  {
    match item
    case Breaks => RunningIsBroken(m, s, first);
    case Ordinary =>
      ForwardKeepsLog(m, env, s, item, first);
      RunningIsBroken(m, Forward(env, s, item).state, first);
    case Terminal(phase) => TerminalKeeps(m, env, s, phase, first);
  }

  lemma TerminalKeeps(m: Mode, env: Env, s: State, phase: Phase, first: Option<Phase>)
    requires Running(m, s, first)
    ensures var r, now := Handle(m, env, s, Terminal(phase)), Next(first, Terminal(phase));
            (!r.threw ==> Running(m, r.state, now)) && Broken(m, r.state, now)
  {
    var item, now := Terminal(phase), Next(first, Terminal(phase));
    StopFirstKeeps(m, env, s, first);
    var a := StopFirst(m, env, s);
    FixFirst(m, a.state, first, phase);
    if !a.threw {
      ReportAdds(m, env, a.state, phase, now);
      var b := Report(m, env, a.state, phase);
      if !b.threw {
        ForwardKeepsLog(m, env, b.state, item, now);
        RunningIsBroken(m, Forward(env, b.state, item).state, now);
      }
    }
  }

  lemma {:induction false} ConsumeKeeps(m: Mode, env: Env, s: State, items: seq<Item>, first: Option<Phase>)
    requires Running(m, s, first)
    ensures var r, last := Consume(m, env, s, items), if first.Some? then first else FirstTerminal(items);
            if r.threw then Broken(m, r.state, last) || Broken(m, r.state, first) else Running(m, r.state, last)
    decreases items
  {
    if items != [] {
      HandleKeeps(m, env, s, items[0], first);
      var r := Handle(m, env, s, items[0]);
      if !r.threw { ConsumeKeeps(m, env, r.state, items[1..], Next(first, items[0])); }
    }
  }

  // ---------------------------------------------------------------- catch and finally

  lemma CatchKeeps(m: Mode, env: Env, s: State, first: Option<Phase>)
    requires Broken(m, s, first)
    ensures Corrected(m, Catch(m, env, s), first)
  {
    var r := StopAfterError(m, env, s);
    assert LogOk(m, s.(stopAttempted := true), first);
    if !m.physical { StopKeepsLog(m, env, s, first); }
    else if !s.stopAttempted { StopKeepsLog(m, env, s.(stopAttempted := true), first); }
    else { NoticeKeepsLog(m, env, s, first); }
    if !r.threw { FailureReported(m, env, r.state, first); }
  }

  /** What may have been reported once a failure has been dealt with. */
  ghost predicate Corrected(m: Mode, s: State, first: Option<Phase>) {
    && LogOk(m, s, first)
    && (m.worktree ==>
          Broken(m, s, first)
          || (s.reported == Some(IncompleteDelivery) && Reported(m, s.log) == [Completed, IncompleteDelivery]))
  }

  lemma IncompleteReported(m: Mode, env: Env, s: State, first: Option<Phase>)
    requires Broken(m, s, first) && Stopped(s.log)
    ensures var r := Report(m, env, s, IncompleteDelivery).state;
            Corrected(m, r, first) && Stopped(r.log) && (m.worktree ==> Reported(m, r.log) != [])
  {
    ReportAdds(m, env, s, IncompleteDelivery, first);
  }

  lemma FailureAppended(m: Mode, env: Env, r: State, first: Option<Phase>)
    requires Corrected(m, r, first) && Stopped(r.log) && (m.worktree ==> Reported(m, r.log) != [])
    ensures Corrected(m, RunEvent(r, FailedLifecycle(r.sequence, Succeeds(env, r))), first)
  {
    var e := FailedLifecycle(r.sequence, Succeeds(env, r));
    AppendKeepsLog(m, r, RunEvent(r, e), e, first);
    ReportedAppend(m, r.log, e);
  }

  lemma FailureReported(m: Mode, env: Env, s: State, first: Option<Phase>)
    requires Broken(m, s, first) && Stopped(s.log)
    ensures Corrected(m, ReportFailure(m, env, s), first)
  {
    IncompleteReported(m, env, s, first);
    FailureAppended(m, env, Report(m, env, s, IncompleteDelivery).state, first);
  }

  /** The outcomes a stream may report on a worktree plan. */
  ghost predicate Allowed(m: Mode, outcomes: seq<Outcome>) {
    || |outcomes| == 1
    || outcomes == [Completed, IncompleteDelivery]
    || (!m.typed && outcomes == [Completed, Unconfirmed])
  }

  lemma StopAtEndKeepsLog(m: Mode, env: Env, s: State, first: Option<Phase>)
    requires LogOk(m, s, first)
    ensures var t := StopAtEnd(m, env, s);
            LogOk(m, t, first) && Reported(m, t.log) == Reported(m, s.log) && t.reported == s.reported
  {
    if m.physical {
      NoticeKeepsLog(m, env, s, first);
      StopKeepsLog(m, env, Notice(env, s), first);
    }
  }

  lemma FinallyKeeps(m: Mode, env: Env, s: State, first: Option<Phase>)
    requires Corrected(m, s, first)
    ensures LogOk(m, Finally(m, env, s), first)
    ensures m.worktree ==> Allowed(m, Reported(m, Finally(m, env, s).log))
  {
    StopAtEndKeepsLog(m, env, s, first);
    ReportAdds(m, env, StopAtEnd(m, env, s), Unconfirmed, first);
  }

  /** What the `try` block leaves behind; `first` is the first terminal phase it handled. */
  ghost predicate Attempted(m: Mode, r: Result, first: Option<Phase>) {
    if r.threw then Broken(m, r.state, first) else Running(m, r.state, first)
  }

  lemma AttemptKeeps(m: Mode, env: Env, items: seq<Item>) returns (first: Option<Phase>)
    ensures Attempted(m, Attempt(m, env, items), first) && (first == FirstTerminal(items) || first == None)
  {
    var ok := Succeeds(env, Initial());
    var a := Initial().(log := [Ack(ok)]);
    assert a.log == Initial().log + [Ack(ok)];
    AppendKeepsLog(m, Initial(), a, Ack(ok), None);
    ReportedAppend(m, [], Ack(ok));
    assert Running(m, a, None);
    first := None;
    if ok {
      ConsumeKeeps(m, env, a, items, None);
      var r := Consume(m, env, a, items);
      first := if r.threw && Broken(m, r.state, None) then None else FirstTerminal(items);
    }
  }

  lemma WindUpKeeps(m: Mode, env: Env, r: Result, first: Option<Phase>)
    requires Attempted(m, r, first)
    ensures LogOk(m, WindUp(m, env, r), first)
    ensures m.worktree ==> Allowed(m, Reported(m, WindUp(m, env, r).log))
  {
    if r.threw { CatchKeeps(m, env, r.state, first); } else { RunningIsBroken(m, r.state, first); }
    FinallyKeeps(m, env, if r.threw then Catch(m, env, r.state) else r.state, first);
  }

  // ---------------------------------------------------------------- main results

  /**
   On a worktree plan every stream attempts a retention report, and at most two: in typed mode two
   only as completed then incomplete delivery; the legacy diagnostic also allows completed then unconfirmed.
   */
  lemma OneOrTwoReports(m: Mode, env: Env, items: seq<Item>)
    requires m.worktree
    ensures var outcomes := Reported(m, Stream(m, env, items).log);
            && 1 <= |outcomes| <= 2
            && (|outcomes| == 2 ==>
                  outcomes == [Completed, IncompleteDelivery] || (!m.typed && outcomes == [Completed, Unconfirmed]))
  {
    var first := AttemptKeeps(m, env, items);
    WindUpKeeps(m, env, Attempt(m, env, items), first);
  }

  /**
   A terminal lifecycle event follows a report, and an adapter's own terminal event the report of the first
   phase it announced.
   */
  lemma TerminalFollowsItsReport(m: Mode, env: Env, items: seq<Item>, k: nat)
    requires m.worktree && k < |Stream(m, env, items).log| && IsTerminal(Stream(m, env, items).log[k])
    ensures var log := Stream(m, env, items).log;
            && Reported(m, log[..k]) != []
            && (log[k].Forwarded? ==>
                  FirstTerminal(items).Some? && Reported(m, log[..k]) == [FirstTerminal(items).value])
  {
    var first := AttemptKeeps(m, env, items);
    WindUpKeeps(m, env, Attempt(m, env, items), first);
    assert EntryOk(m, Stream(m, env, items).log, k, first);
  }

  /**
   When a completed event goes out, the server's receipt for the completed report is there exactly
   when no failed or cancelled terminal event came first.
   */
  lemma CompletedNeedsReceiptIff(m: Mode, env: Env, items: seq<Item>, k: nat)
    requires m.worktree && m.typed
    requires k < |Stream(m, env, items).log|
    requires var e := Stream(m, env, items).log[k]; e.Forwarded? && e.item == Terminal(Completed)
    ensures HasReceipt(Stream(m, env, items).log[..k]) <==> FirstTerminal(items) == Some(Completed)
  {
    var first := AttemptKeeps(m, env, items);
    WindUpKeeps(m, env, Attempt(m, env, items), first);
    var log := Stream(m, env, items).log;
    assert EntryOk(m, log, k, first);
    if HasReceipt(log[..k]) { ReceiptIsReported(m, log[..k]); }
  }

  /** The order that breaks it: failed, then completed. Every send succeeds, completed goes out, no receipt exists. */
  lemma CompletedWithoutReceipt()
    ensures var m, env := Mode(true, true, false), Env(k => true, k => false);
            var log := Stream(m, env, [Terminal(Failed), Terminal(Completed)]).log;
            |log| == 5 && log[4] == Forwarded(Terminal(Completed), 3, true) && !HasReceipt(log)
  {
    var m, env := Mode(true, true, false), Env(k => true, k => false);
    var items := [Terminal(Failed), Terminal(Completed)];
    assert items[1..] == [Terminal(Completed)] && items[1..][1..] == [];
    var s0 := Initial().(log := [Ack(true)]);
    var s1 := Handle(m, env, s0, items[0]).state;
    assert s1.log == [Ack(true), Retained(Failed, 0, true), Diagnostic(Failed, 1, true),
        Forwarded(Terminal(Failed), 2, true)];
    var s2 := Handle(m, env, s1, items[1]).state;
    assert s2.log == s1.log + [Forwarded(Terminal(Completed), 3, true)];
    assert Consume(m, env, s0, items) == Consume(m, env, s1, items[1..]) == Consume(m, env, s2, []);
  }

  /** Every run event has the next sequence, whatever failed before it. */
  lemma SequencesAreConsecutive(m: Mode, env: Env, items: seq<Item>, k: nat)
    requires k < |Stream(m, env, items).log| && Sequenced(Stream(m, env, items).log[k])
    ensures Stream(m, env, items).log[k].sequence == CountSequenced(Stream(m, env, items).log[..k])
  {
    var first := AttemptKeeps(m, env, items);
    WindUpKeeps(m, env, Attempt(m, env, items), first);
    assert EntryOk(m, Stream(m, env, items).log, k, first);
  }

  // ---------------------------------------------------------------- nothing is dropped or reordered

  /** The adapter events forwarded so far, in order. */
  function ForwardedItems(log: seq<Entry>): seq<Item> {
    if log == [] then [] else
    var last := log[|log| - 1];
    ForwardedItems(log[..|log| - 1]) + (if last.Forwarded? then [last.item] else [])
  }

  lemma ForwardedAppend(log: seq<Entry>, e: Entry)
    ensures ForwardedItems(log + [e]) == if e.Forwarded? then ForwardedItems(log) + [e.item] else ForwardedItems(log)
  {
    assert (log + [e])[..|log|] == log;
  }

  lemma ReportForwardsNothing(m: Mode, env: Env, s: State, outcome: Outcome)
    ensures ForwardedItems(Report(m, env, s, outcome).state.log) == ForwardedItems(s.log)
  {
    if m.worktree && !AlreadyReported(s, outcome) {
      var r := s.(reported := Some(outcome));
      var e := Retained(outcome, r.sequence, Succeeds(env, r));
      var t := if m.typed then RunEvent(r, e) else r;
      ForwardedAppend(s.log, e);
      ForwardedAppend(t.log, Diagnostic(outcome, t.sequence, Succeeds(env, t)));
    }
  }

  lemma NoticeForwardsNothing(env: Env, s: State)
    ensures ForwardedItems(Notice(env, s).log) == ForwardedItems(s.log)
  {
    ForwardedAppend(s.log, ClosedElsewhere);
  }

  lemma StopForwardsNothing(m: Mode, env: Env, s: State)
    ensures var r := if m.physical then StopPhysical(env, s) else StopLegacy(env, s);
            ForwardedItems(r.state.log) == ForwardedItems(s.log)
  {
    var n := if m.physical then Notice(env, s) else s;
    NoticeForwardsNothing(env, s);
    ForwardedAppend(n.log, Stop(Succeeds(env, n)));
  }

  /** One turn forwards its event, unless it throws first. */
  lemma HandleForwards(m: Mode, env: Env, s: State, item: Item)
    ensures var r := Handle(m, env, s, item);
            var f := ForwardedItems(r.state.log);
            f == ForwardedItems(s.log) + [item] || (r.threw && f == ForwardedItems(s.log))
  {
    var a := StopFirst(m, env, s);
    StopForwardsNothing(m, env, s.(stopAttempted := true));
    if item.Terminal? && !a.threw {
      var b := Report(m, env, a.state, item.phase);
      ReportForwardsNothing(m, env, a.state, item.phase);
      ForwardedAppend(b.state.log, Forwarded(item, b.state.sequence, Succeeds(env, b.state)));
    } else if item.Ordinary? {
      ForwardedAppend(s.log, Forwarded(item, s.sequence, Succeeds(env, s)));
    }
  }

  lemma {:induction false} ConsumeForwards(m: Mode, env: Env, s: State, done: seq<Item>, items: seq<Item>)
    requires ForwardedItems(s.log) == done
    ensures var r := Consume(m, env, s, items);
            if r.threw then ForwardedItems(r.state.log) <= done + items else ForwardedItems(r.state.log) == done + items
    decreases items
  {
    if items == [] {
      EmptyIsNeutral(done);
    } else {
      HandleForwards(m, env, s, items[0]);
      var r := Handle(m, env, s, items[0]);
      Associative(done, [items[0]], items[1..]);
      assert items == [items[0]] + items[1..];
      if !r.threw { ConsumeForwards(m, env, r.state, done + [items[0]], items[1..]); }
    }
  }

  lemma CatchForwardsNothing(m: Mode, env: Env, s: State)
    ensures ForwardedItems(Catch(m, env, s).log) == ForwardedItems(s.log)
  {
    NoticeForwardsNothing(env, s);
    StopForwardsNothing(m, env, s);
    StopForwardsNothing(m, env, s.(stopAttempted := true));
    var r := StopAfterError(m, env, s);
    ReportForwardsNothing(m, env, r.state, IncompleteDelivery);
    var t := Report(m, env, r.state, IncompleteDelivery).state;
    ForwardedAppend(t.log, FailedLifecycle(t.sequence, Succeeds(env, t)));
  }

  lemma FinallyForwardsNothing(m: Mode, env: Env, s: State)
    ensures ForwardedItems(Finally(m, env, s).log) == ForwardedItems(s.log)
  {
    NoticeForwardsNothing(env, s);
    StopForwardsNothing(m, env, Notice(env, s));
    ReportForwardsNothing(m, env, StopAtEnd(m, env, s), Unconfirmed);
  }

  /**
   The events forwarded are the adapter's own, in its order, from the first on; all of them unless
   something threw.
   */
  lemma ForwardsInOrder(m: Mode, env: Env, items: seq<Item>)
    ensures var f := ForwardedItems(Stream(m, env, items).log);
            f <= items && (!Attempt(m, env, items).threw ==> f == items)
  {
    var ok := Succeeds(env, Initial());
    var a := Initial().(log := [Ack(ok)]);
    ForwardedAppend([], Ack(ok));
    assert a.log == [] + [Ack(ok)];
    ConsumeForwards(m, env, a, [], items);
    EmptyIsNeutral(items);
    var r := Attempt(m, env, items);
    CatchForwardsNothing(m, env, r.state);
    FinallyForwardsNothing(m, env, if r.threw then Catch(m, env, r.state) else r.state);
  }

  /** The stream itself reports failure, and forwards an owned run's end, only after the writer is known to be gone. */
  lemma FailureFollowsStop(m: Mode, env: Env, items: seq<Item>, k: nat)
    requires k < |Stream(m, env, items).log|
    requires var e := Stream(m, env, items).log[k]; e.FailedLifecycle? || (m.physical && IsTerminal(e))
    ensures Stopped(Stream(m, env, items).log[..k])
  {
    var first := AttemptKeeps(m, env, items);
    WindUpKeeps(m, env, Attempt(m, env, items), first);
    assert EntryOk(m, Stream(m, env, items).log, k, first);
  }
}
