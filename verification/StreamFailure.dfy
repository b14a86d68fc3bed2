/**
 How one run's stream fails (apps/artood/src/node-client.ts:698-802): exactly when the `try` block throws, when the
 stream itself reports the failure, which retention outcomes it reports and whether it stops its writer, all read
 from the log, for every sequence of adapter events and every pattern of failing sends and stops.
 */
module StreamFailure {
  import opened Common
  import opened NodeStream

  // ---------------------------------------------------------------- when the try block throws

  /** An attempt whose failure the `try` block does not swallow. */
  predicate Fatal(m: Mode, e: Entry) {
    match e
    case Ack(ok) => !ok
    case Forwarded(_, _, ok) => !ok
    case Retained(outcome, _, ok) => !ok && outcome == Completed
    case Diagnostic(outcome, _, ok) => !ok && outcome == Completed && !m.typed
    case Stop(ok) => !ok
    case _ => false
  }

  predicate AnyFatal(m: Mode, log: seq<Entry>) {
    exists k :: 0 <= k < |log| && Fatal(m, log[k])
  }

  lemma FatalAppend(m: Mode, log: seq<Entry>, e: Entry)
    ensures AnyFatal(m, log + [e]) <==> AnyFatal(m, log) || Fatal(m, e)
  {
    var t := log + [e];
    assert t[|log|] == e;
    if AnyFatal(m, log) {
      var k :| 0 <= k < |log| && Fatal(m, log[k]);
      assert t[k] == log[k];
    }
  }

  lemma ReportThrows(m: Mode, env: Env, s: State, outcome: Outcome)
    requires !AnyFatal(m, s.log)
    ensures var r := Report(m, env, s, outcome); r.threw <==> AnyFatal(m, r.state.log)
  {
    if m.worktree && !AlreadyReported(s, outcome) {
      var r := s.(reported := Some(outcome));
      var e := Retained(outcome, r.sequence, Succeeds(env, r));
      var t := if m.typed then RunEvent(r, e) else r;
      FatalAppend(m, s.log, e);
      FatalAppend(m, t.log, Diagnostic(outcome, t.sequence, Succeeds(env, t)));
    }
  }

  lemma StopThrows(m: Mode, env: Env, s: State)
    requires !AnyFatal(m, s.log)
    ensures var a := StopFirst(m, env, s); a.threw <==> AnyFatal(m, a.state.log)
  {
    if m.physical {
      FatalAppend(m, s.log, ClosedElsewhere);
      var n := Notice(env, s.(stopAttempted := true));
      FatalAppend(m, n.log, Stop(Succeeds(env, n)));
    }
  }

  lemma HandleThrows(m: Mode, env: Env, s: State, item: Item)
    requires !AnyFatal(m, s.log)
    ensures var r := Handle(m, env, s, item); r.threw <==> item.Breaks? || AnyFatal(m, r.state.log)
  {
    if item.Ordinary? {
      FatalAppend(m, s.log, Forwarded(item, s.sequence, Succeeds(env, s)));
    } else if item.Terminal? {
      StopThrows(m, env, s);
      var a := StopFirst(m, env, s);
      if !a.threw {
        ReportThrows(m, env, a.state, item.phase);
        var b := Report(m, env, a.state, item.phase).state;
        FatalAppend(m, b.log, Forwarded(item, b.sequence, Succeeds(env, b)));
      }
    }
  }

  lemma {:induction false} ConsumeThrows(m: Mode, env: Env, s: State, items: seq<Item>)
    requires !AnyFatal(m, s.log)
    ensures var r := Consume(m, env, s, items); r.threw <==> Breaks in items || AnyFatal(m, r.state.log)
    decreases items
  {
    if items != [] {
      HandleThrows(m, env, s, items[0]);
      var r := Handle(m, env, s, items[0]);
      assert items == [items[0]] + items[1..];
      if !r.threw { ConsumeThrows(m, env, r.state, items[1..]); }
    }
  }

  /**
   The `try` block throws if and only if the adapter's events break it, or some attempt failed that it does
   not swallow.
   */
  lemma TryThrowsExactly(m: Mode, env: Env, items: seq<Item>)
    ensures var r := Attempt(m, env, items);
            r.threw <==> Breaks in items || AnyFatal(m, r.state.log)
    ensures Attempt(m, env, items).state.log != [] && Attempt(m, env, items).state.log[0].Ack?
  {
    var ok := Succeeds(env, Initial());
    var a := Initial().(log := [Ack(ok)]);
    assert !AnyFatal(m, []);
    assert a.log == [] + [Ack(ok)] && a.log[0] == Ack(ok);
    FatalAppend(m, [], Ack(ok));
    if ok {
      ConsumeThrows(m, env, a, items);
      ConsumeOnlyAdds(m, env, a, items);
      assert Attempt(m, env, items).state.log[0] == a.log[0];
    }
  }

  // ---------------------------------------------------------------- what each part adds to the log

  /** From `s` to `t` the log only grew, by entries that satisfy `p`. */
  ghost predicate Adds(s: State, t: State, p: Entry -> bool) {
    s.log <= t.log && forall k | |s.log| <= k < |t.log| :: p(t.log[k])
  }

  /** A report, a stop or the notice of one: what everything but the loop and the failure itself adds. */
  predicate Aside(e: Entry) {
    e.Retained? || e.Diagnostic? || e.Stop? || e.ClosedElsewhere?
  }

  predicate InLoop(e: Entry) {
    Aside(e) || e.Forwarded?
  }

  lemma ReportIsAside(m: Mode, env: Env, s: State, outcome: Outcome)
    ensures Adds(s, Report(m, env, s, outcome).state, Aside)
  {}

  lemma StopsAreAside(m: Mode, env: Env, s: State)
    ensures Adds(s, StopAfterError(m, env, s).state, Aside) && Adds(s, StopFirst(m, env, s).state, Aside)
    ensures Adds(s, StopAtEnd(m, env, s), Aside)
  {}

  lemma HandleOnlyAdds(m: Mode, env: Env, s: State, item: Item)
    ensures Adds(s, Handle(m, env, s, item).state, InLoop)
  {
    StopsAreAside(m, env, s);
    if item.Terminal? { ReportIsAside(m, env, StopFirst(m, env, s).state, item.phase); }
  }

  lemma {:induction false} ConsumeOnlyAdds(m: Mode, env: Env, s: State, items: seq<Item>)
    ensures Adds(s, Consume(m, env, s, items).state, InLoop)
    decreases items
  {
    if items != [] {
      HandleOnlyAdds(m, env, s, items[0]);
      var r := Handle(m, env, s, items[0]);
      if !r.threw { ConsumeOnlyAdds(m, env, r.state, items[1..]); }
    }
  }

  lemma FinallyIsAside(m: Mode, env: Env, s: State)
    ensures Adds(s, Finally(m, env, s), Aside)
  {
    StopsAreAside(m, env, s);
    ReportIsAside(m, env, StopAtEnd(m, env, s), Unconfirmed);
  }

  // ---------------------------------------------------------------- the failure is reported

  /** A legacy stream has stopped nothing before its `catch` block. */
  predicate NoStop(log: seq<Entry>) {
    forall k | 0 <= k < |log| :: !log[k].Stop? && !log[k].ClosedElsewhere?
  }

  lemma {:induction false} LegacyLoopStopsNothing(m: Mode, env: Env, s: State, items: seq<Item>)
    requires !m.physical && NoStop(s.log)
    ensures NoStop(Consume(m, env, s, items).state.log)
    decreases items
  {
    if items != [] {
      LegacyTurnStopsNothing(m, env, s, items[0]);
      if !Handle(m, env, s, items[0]).threw {
        LegacyLoopStopsNothing(m, env, Handle(m, env, s, items[0]).state, items[1..]);
      }
    }
  }

  lemma LegacyTurnStopsNothing(m: Mode, env: Env, s: State, item: Item)
    requires !m.physical && NoStop(s.log)
    ensures NoStop(Handle(m, env, s, item).state.log)
  {
    if item.Terminal? { LegacyReportStopsNothing(m, env, s, item.phase); }
  }

  /** The catch block's stop fails exactly if the writer is still not known to be gone. */
  lemma CatchKnowsWhatStopped(m: Mode, env: Env, s: State, first: Option<Phase>)
    requires LogOk(m, s, first) && (m.physical || NoStop(s.log))
    ensures var a := StopAfterError(m, env, s);
            && LogOk(m, a.state, first) && (a.threw <==> !Stopped(a.state.log))
            && Reported(m, a.state.log) == Reported(m, s.log) && a.state.reported == s.reported
  {
    assert LogOk(m, s.(stopAttempted := true), first);
    if !m.physical {
      StopKeepsLog(m, env, s, first);
      StoppedAppend(s.log, Stop(Succeeds(env, s)));
    } else if !s.stopAttempted {
      StopKeepsLog(m, env, s.(stopAttempted := true), first);
    } else {
      NoticeKeepsLog(m, env, s, first);
    }
  }

  /** Entry `k` is the only failure of the log, and nothing of the adapter's comes after it. */
  ghost predicate OnlyFailure(log: seq<Entry>, k: nat) {
    && k < |log| && log[k].FailedLifecycle?
    && (forall j | 0 <= j < |log| && log[j].FailedLifecycle? :: j == k)
    && (forall j | k < j < |log| :: Aside(log[j]))
  }

  predicate NoFailure(log: seq<Entry>) {
    forall j | 0 <= j < |log| :: !log[j].FailedLifecycle?
  }

  lemma AttemptReportsNoFailure(m: Mode, env: Env, items: seq<Item>)
    ensures NoFailure(Attempt(m, env, items).state.log)
    ensures !m.physical ==> NoStop(Attempt(m, env, items).state.log)
  {
    var ok := Succeeds(env, Initial());
    var a := Initial().(log := [Ack(ok)]);
    ConsumeOnlyAdds(m, env, a, items);
    if !m.physical { LegacyLoopStopsNothing(m, env, a, items); }
  }

  lemma CatchReports(m: Mode, env: Env, s: State)
    requires NoFailure(s.log)
    ensures var a, c := StopAfterError(m, env, s), Catch(m, env, s);
            && (a.threw ==> c == a.state && NoFailure(c.log))
            && (!a.threw ==> |c.log| > |s.log| && OnlyFailure(c.log, |c.log| - 1) && c.log[..|s.log|] == s.log)
  {
    var a := StopAfterError(m, env, s);
    StopsAreAside(m, env, s);
    assert NoFailure(a.state.log);
    if !a.threw {
      ReportIsAside(m, env, a.state, IncompleteDelivery);
      var r := Report(m, env, a.state, IncompleteDelivery).state;
      assert NoFailure(r.log);
    }
  }

  /**
   Main result: the stream sends exactly one failed lifecycle event of its own if and only if the `try` block threw and
   the writer is known to have stopped once the `catch` block has tried; after it come reports only, no event of the
   adapter. Otherwise it sends none.
   */
  lemma FailureIsReportedExactly(m: Mode, env: Env, items: seq<Item>)
    ensures var r, log := Attempt(m, env, items), Stream(m, env, items).log;
            if r.threw && Stopped(StopAfterError(m, env, r.state).state.log)
            then exists k: nat :: |r.state.log| <= k && OnlyFailure(log, k)
            else NoFailure(log)
  {
    var r := Attempt(m, env, items);
    AttemptReportsNoFailure(m, env, items);
    if r.threw {
      var first := AttemptKeeps(m, env, items);
      CaughtIsReported(m, env, r.state, first);
    } else {
      EndAddsNoFailure(m, env, r.state);
    }
  }

  lemma CaughtIsReported(m: Mode, env: Env, s: State, first: Option<Phase>)
    requires NoFailure(s.log) && LogOk(m, s, first) && (m.physical || NoStop(s.log))
    ensures var c := Catch(m, env, s);
            var log := Finally(m, env, c).log;
            if Stopped(StopAfterError(m, env, s).state.log)
            then |s.log| < |c.log| && OnlyFailure(log, |c.log| - 1)
            else NoFailure(log)
  {
    CatchReports(m, env, s);
    CatchKnowsWhatStopped(m, env, s, first);
    EndAddsNoFailure(m, env, Catch(m, env, s));
  }

  lemma EndAddsNoFailure(m: Mode, env: Env, c: State)
    ensures var log := Finally(m, env, c).log;
            && (NoFailure(c.log) ==> NoFailure(log))
            && (c.log != [] && OnlyFailure(c.log, |c.log| - 1) ==> OnlyFailure(log, |c.log| - 1))
  {
    FinallyIsAside(m, env, c);
    var log := Finally(m, env, c).log;
    assert forall k | 0 <= k < |c.log| :: log[k] == c.log[k];
  }

  // ---------------------------------------------------------------- stopping the writer

  /** A legacy stream stops its writer exactly once, exactly if it threw. */
  lemma LegacyStopsExactly(m: Mode, env: Env, items: seq<Item>)
    requires !m.physical
    ensures var r, log := Attempt(m, env, items), Stream(m, env, items).log;
            if r.threw then
              && |r.state.log| < |log| && log[|r.state.log|].Stop?
              && forall k | 0 <= k < |log| && (log[k].Stop? || log[k].ClosedElsewhere?) :: k == |r.state.log|
            else NoStop(log)
  {
    var r := Attempt(m, env, items);
    AttemptReportsNoFailure(m, env, items);
    LegacyReportStopsNothing(m, env, r.state, Unconfirmed);
    if r.threw {
      var a := StopLegacy(env, r.state).state;
      LegacyReportStopsNothing(m, env, a, IncompleteDelivery);
      LegacyReportStopsNothing(m, env, Catch(m, env, r.state), Unconfirmed);
    }
  }

  predicate StopsNothing(e: Entry) {
    !e.Stop? && !e.ClosedElsewhere?
  }

  lemma LegacyReportStopsNothing(m: Mode, env: Env, s: State, outcome: Outcome)
    ensures Adds(s, Report(m, env, s, outcome).state, StopsNothing)
  {}

  /** An owned stream never ends without having tried to stop its writer, or having noticed that it is gone. */
  lemma OwnedStreamStops(m: Mode, env: Env, items: seq<Item>)
    requires m.physical
    ensures !NoStop(Stream(m, env, items).log)
  {
    var r := Attempt(m, env, items);
    var first := AttemptKeeps(m, env, items);
    AttemptTriesToStop(m, env, items);
    var c := if r.threw then Catch(m, env, r.state) else r.state;
    CatchTriesToStop(m, env, r.state);
    EndTriesToStop(m, env, c);
    ReportIsAside(m, env, StopAtEnd(m, env, c), Unconfirmed);
    var t := StopAtEnd(m, env, c);
    var k :| 0 <= k < |t.log| && (t.log[k].Stop? || t.log[k].ClosedElsewhere?);
    assert Finally(m, env, c).log[k] == t.log[k];
  }

  /** Whoever marked the stop as attempted, or found the run closed, left a trace of it. */
  ghost predicate Traced(s: State) {
    s.stopAttempted || s.closed ==> !NoStop(s.log)
  }

  lemma TraceStays(s: State, t: State, p: Entry -> bool)
    requires Traced(s) && Adds(s, t, p) && t.stopAttempted == s.stopAttempted && t.closed == s.closed
    ensures Traced(t)
  {
    if !NoStop(s.log) {
      var k :| 0 <= k < |s.log| && (s.log[k].Stop? || s.log[k].ClosedElsewhere?);
      assert t.log[k] == s.log[k];
    }
  }

  lemma StopIsTraced(env: Env, s: State)
    requires s.closed ==> !NoStop(s.log)
    ensures Traced(StopPhysical(env, s.(stopAttempted := true)).state)
    ensures Notice(env, s).closed ==> !NoStop(Notice(env, s).log)
  {
    var n := Notice(env, s.(stopAttempted := true));
    var t := StopPhysical(env, s.(stopAttempted := true)).state;
    if !NoStop(s.log) {
      var k :| 0 <= k < |s.log| && (s.log[k].Stop? || s.log[k].ClosedElsewhere?);
      assert n.log[k] == s.log[k] && t.log[k] == s.log[k] && Notice(env, s).log[k] == s.log[k];
    } else {
      assert t.log[|t.log| - 1].Stop? || t.log[|t.log| - 1].ClosedElsewhere?;
      if Notice(env, s) != s { assert Notice(env, s).log[|s.log|] == ClosedElsewhere; }
    }
  }

  lemma HandleIsTraced(m: Mode, env: Env, s: State, item: Item)
    requires m.physical && Traced(s)
    ensures Traced(Handle(m, env, s, item).state)
  {
    if item.Terminal? {
      StopIsTraced(env, s);
      var a := StopFirst(m, env, s);
      if !a.threw {
        var b := Report(m, env, a.state, item.phase);
        ReportIsAside(m, env, a.state, item.phase);
        TraceStays(a.state, b.state, Aside);
        TraceStays(b.state, Forward(env, b.state, item).state, e => true);
      }
    } else if item.Ordinary? {
      TraceStays(s, Forward(env, s, item).state, e => true);
    }
  }

  lemma {:induction false} ConsumeIsTraced(m: Mode, env: Env, s: State, items: seq<Item>)
    requires m.physical && Traced(s)
    ensures Traced(Consume(m, env, s, items).state)
    decreases items
  {
    if items != [] {
      HandleIsTraced(m, env, s, items[0]);
      var r := Handle(m, env, s, items[0]);
      if !r.threw { ConsumeIsTraced(m, env, r.state, items[1..]); }
    }
  }

  lemma AttemptTriesToStop(m: Mode, env: Env, items: seq<Item>)
    requires m.physical
    ensures Traced(Attempt(m, env, items).state)
  {
    ConsumeIsTraced(m, env, Initial().(log := [Ack(Succeeds(env, Initial()))]), items);
  }

  lemma CatchTriesToStop(m: Mode, env: Env, s: State)
    requires m.physical && Traced(s)
    ensures Traced(Catch(m, env, s))
  {
    StopIsTraced(env, s);
    var a := StopAfterError(m, env, s);
    assert Traced(a.state);
    if !a.threw {
      var r := Report(m, env, a.state, IncompleteDelivery).state;
      ReportIsAside(m, env, a.state, IncompleteDelivery);
      TraceStays(a.state, r, Aside);
      TraceStays(r, Catch(m, env, s), e => true);
    }
  }

  lemma EndTriesToStop(m: Mode, env: Env, s: State)
    requires m.physical && Traced(s)
    ensures !NoStop(StopAtEnd(m, env, s).log)
  {
    var n := Notice(env, s);
    StopIsTraced(env, s);
    if !n.closed && !n.stopAttempted {
      var t := StopPhysical(env, n).state;
      assert t.log[|t.log| - 1].Stop?;
    } else if !NoStop(s.log) {
      var k :| 0 <= k < |s.log| && (s.log[k].Stop? || s.log[k].ClosedElsewhere?);
      assert n.log[k] == s.log[k];
    }
  }

  // ---------------------------------------------------------------- the reported outcomes

  /**
   The outcomes reported, given those of the `try` block, whether the failure was dealt with, and what is
   remembered.
   */
  function AllReported(tried: seq<Outcome>, failed: bool, remembered: bool): seq<Outcome> {
    if failed && (tried == [] || tried == [Completed]) then tried + [IncompleteDelivery]
    else if tried == [] || !remembered then tried + [Unconfirmed]
    else tried
  }

  /**
   Main result: on a worktree plan a stream reports the outcome of the `try` block, if that got to one; then incomplete
   delivery exactly if it failed with its writer known to have stopped before any other outcome than completed; and
   unconfirmed exactly if nothing of all this is remembered as reported.
   */
  lemma ReportsExactly(m: Mode, env: Env, items: seq<Item>)
    requires m.worktree
    ensures var r := Attempt(m, env, items);
            var tried := Reported(m, r.state.log);
            && (tried == [] || (FirstTerminal(items).Some? && tried == [FirstTerminal(items).value]))
            && (!r.threw && FirstTerminal(items).Some? ==> tried == [FirstTerminal(items).value])
            && Reported(m, Stream(m, env, items).log) ==
                 AllReported(tried, r.threw
                     && Stopped(StopAfterError(m, env, r.state).state.log), r.state.reported.Some?)
  {
    var r := Attempt(m, env, items);
    var first := AttemptKeeps(m, env, items);
    AttemptReportsNoFailure(m, env, items);
    TriedIsFirst(m, env, items);
    if r.threw {
      CatchKnowsWhatStopped(m, env, r.state, first);
      var a := StopAfterError(m, env, r.state);
      if !a.threw {
        CatchReportsIncomplete(m, env, r.state, first);
        CatchKeeps(m, env, r.state, first);
      }
    } else {
      RunningIsBroken(m, r.state, first);
    }
    var c := if r.threw then Catch(m, env, r.state) else r.state;
    StopAtEndKeepsLog(m, env, c, first);
    ReportAdds(m, env, StopAtEnd(m, env, c), Unconfirmed, first);
  }

  lemma CatchReportsIncomplete(m: Mode, env: Env, s: State, first: Option<Phase>)
    requires Broken(m, s, first) && (m.physical || NoStop(s.log)) && m.worktree && !StopAfterError(m, env, s).threw
    ensures var c, tried := Catch(m, env, s), Reported(m, s.log);
            && LogOk(m, c, first)
            && (if tried == [] || tried == [Completed]
                then Reported(m, c.log) == tried + [IncompleteDelivery] && c.reported == Some(IncompleteDelivery)
                else Reported(m, c.log) == tried && c.reported == s.reported)
  {
    CatchKnowsWhatStopped(m, env, s, first);
    var a := StopAfterError(m, env, s).state;
    ReportAdds(m, env, a, IncompleteDelivery, first);
    var r := Report(m, env, a, IncompleteDelivery).state;
    ReportedAppend(m, r.log, FailedLifecycle(r.sequence, Succeeds(env, r)));
    CatchKeeps(m, env, s, first);
  }

  /** The `try` block reports nothing, or the first terminal phase; without a throw exactly that, if there is one. */
  lemma TriedIsFirst(m: Mode, env: Env, items: seq<Item>)
    requires m.worktree
    ensures var r := Attempt(m, env, items);
            var tried := Reported(m, r.state.log);
            && (tried == [] || (FirstTerminal(items).Some? && tried == [FirstTerminal(items).value]))
            && (!r.threw && FirstTerminal(items).Some? ==> tried == [FirstTerminal(items).value])
  {
    var ok := Succeeds(env, Initial());
    var a := Initial().(log := [Ack(ok)]);
    assert a.log == [] + [Ack(ok)];
    AppendKeepsLog(m, Initial(), a, Ack(ok), None);
    ReportedAppend(m, [], Ack(ok));
    if ok { LoopReportsFirst(m, env, a, items, None); }
  }

  lemma {:induction false} LoopReportsFirst(m: Mode, env: Env, s: State, items: seq<Item>, first: Option<Phase>)
    requires m.worktree && Running(m, s, first)
    ensures var r, last := Consume(m, env, s, items), if first.Some? then first else FirstTerminal(items);
            var tried := Reported(m, r.state.log);
            && (tried == [] || (last.Some? && tried == [last.value]))
            && (first.Some? || (!r.threw && last.Some?) ==> last.Some? && tried == [last.value])
    decreases items
  {
    if items != [] {
      var r := Handle(m, env, s, items[0]);
      HandleKeeps(m, env, s, items[0], first);
      HandleReports(m, env, s, items[0], first);
      if !r.threw { LoopReportsFirst(m, env, r.state, items[1..], Next(first, items[0])); }
    }
  }

  /** One turn reports at most its own phase, and only as the first. */
  lemma HandleReports(m: Mode, env: Env, s: State, item: Item, first: Option<Phase>)
    requires m.worktree && Running(m, s, first)
    ensures var r := Handle(m, env, s, item);
            var tried := Reported(m, r.state.log);
            || tried == Reported(m, s.log)
            || (item.Terminal? && first.None? && tried == [item.phase])
  {
    if item.Ordinary? {
      ReportedAppend(m, s.log, Forwarded(item, s.sequence, Succeeds(env, s)));
    } else if item.Terminal? {
      StopReportsNothing(m, env, s, first);
      if !StopFirst(m, env, s).threw { TerminalReports(m, env, StopFirst(m, env, s).state, item, first); }
    }
  }

  lemma StopReportsNothing(m: Mode, env: Env, s: State, first: Option<Phase>)
    requires Running(m, s, first)
    ensures var a := StopFirst(m, env, s).state;
            Running(m, a, first) && Reported(m, a.log) == Reported(m, s.log) && a.reported == s.reported
  {
    StopFirstKeeps(m, env, s, first);
    if m.physical {
      assert LogOk(m, s.(stopAttempted := true), first);
      StopKeepsLog(m, env, s.(stopAttempted := true), first);
    }
  }

  lemma TerminalReports(m: Mode, env: Env, s: State, item: Item, first: Option<Phase>)
    requires m.worktree && Running(m, s, first) && item.Terminal?
    ensures var b := Report(m, env, s, item.phase);
            var log := if b.threw then b.state.log else Forward(env, b.state, item).state.log;
            Reported(m, log) == Reported(m, s.log) || (first.None? && Reported(m, log) == [item.phase])
  {
    ReportAdds(m, env, s, item.phase, first);
    var b := Report(m, env, s, item.phase);
    ReportedAppend(m, b.state.log, Forwarded(item, b.state.sequence, Succeeds(env, b.state)));
  }

  // ---------------------------------------------------------------- each report has its diagnostic

  /** A report is followed at once by its diagnostic, unless it is a report of completion that failed. */
  ghost predicate DiagnosticFollows(log: seq<Entry>, k: nat) {
    k < |log| && log[k].Retained? && !(log[k].outcome == Completed && !log[k].ok) ==>
      k + 1 < |log| && log[k + 1].Diagnostic? && log[k + 1].outcome == log[k].outcome
  }

  ghost predicate Paired(log: seq<Entry>) {
    forall k: nat :: DiagnosticFollows(log, k)
  }

  lemma PairedAppend(log: seq<Entry>, e: Entry)
    requires Paired(log) && (!e.Retained? || (e.outcome == Completed && !e.ok))
    ensures Paired(log + [e])
  {
    var t := log + [e];
    assert forall k | 0 <= k < |log| :: t[k] == log[k];
    forall k: nat ensures DiagnosticFollows(t, k) { assert DiagnosticFollows(log, k); }
  }

  lemma ReportInPairs(m: Mode, env: Env, s: State, outcome: Outcome)
    requires Paired(s.log)
    ensures Paired(Report(m, env, s, outcome).state.log)
  {
    if m.worktree && !AlreadyReported(s, outcome) {
      var r := s.(reported := Some(outcome));
      var e := Retained(outcome, r.sequence, Succeeds(env, r));
      var t := RunEvent(r, e);
      var d := Diagnostic(outcome, t.sequence, Succeeds(env, t));
      if !m.typed { PairedAppend(s.log, Diagnostic(outcome, r.sequence, Succeeds(env, r))); }
      else if outcome == Completed && !e.ok { PairedAppend(s.log, e); }
      else {
        var u := s.log + [e] + [d];
        assert forall k | 0 <= k < |s.log| :: u[k] == s.log[k];
        forall k: nat ensures DiagnosticFollows(u, k) { assert DiagnosticFollows(s.log, k); }
      }
    }
  }

  lemma StopsInPairs(m: Mode, env: Env, s: State)
    requires Paired(s.log)
    ensures Paired(StopAfterError(m, env, s).state.log) && Paired(StopFirst(m, env, s).state.log)
    ensures Paired(StopAtEnd(m, env, s).log)
  {
    var n := Notice(env, s);
    PairedAppend(s.log, ClosedElsewhere);
    PairedAppend(s.log, Stop(Succeeds(env, s)));
    PairedAppend(n.log, Stop(Succeeds(env, n)));
  }

  lemma HandleInPairs(m: Mode, env: Env, s: State, item: Item)
    requires Paired(s.log)
    ensures Paired(Handle(m, env, s, item).state.log)
  {
    StopsInPairs(m, env, s);
    if item.Ordinary? { PairedAppend(s.log, Forwarded(item, s.sequence, Succeeds(env, s))); }
    if item.Terminal? && !StopFirst(m, env, s).threw {
      ReportInPairs(m, env, StopFirst(m, env, s).state, item.phase);
      var b := Report(m, env, StopFirst(m, env, s).state, item.phase).state;
      PairedAppend(b.log, Forwarded(item, b.sequence, Succeeds(env, b)));
    }
  }

  lemma {:induction false} ConsumeInPairs(m: Mode, env: Env, s: State, items: seq<Item>)
    requires Paired(s.log)
    ensures Paired(Consume(m, env, s, items).state.log)
    decreases items
  {
    if items != [] {
      HandleInPairs(m, env, s, items[0]);
      var r := Handle(m, env, s, items[0]);
      if !r.threw { ConsumeInPairs(m, env, r.state, items[1..]); }
    }
  }

  /** Over the whole stream every typed report has its diagnostic right behind it, except a failed one of completion. */
  lemma EveryReportHasItsDiagnostic(m: Mode, env: Env, items: seq<Item>)
    ensures Paired(Stream(m, env, items).log)
  {
    var a := Initial().(log := [Ack(Succeeds(env, Initial()))]);
    assert Paired(a.log);
    ConsumeInPairs(m, env, a, items);
    var r := Attempt(m, env, items);
    StopsInPairs(m, env, r.state);
    var b := StopAfterError(m, env, r.state).state;
    ReportInPairs(m, env, b, IncompleteDelivery);
    var t := Report(m, env, b, IncompleteDelivery).state;
    PairedAppend(t.log, FailedLifecycle(t.sequence, Succeeds(env, t)));
    var c := if r.threw then Catch(m, env, r.state) else r.state;
    StopsInPairs(m, env, c);
    ReportInPairs(m, env, StopAtEnd(m, env, c), Unconfirmed);
  }
}
