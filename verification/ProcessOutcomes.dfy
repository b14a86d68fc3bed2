/**
 What the process adapter says and when (apps/artood/src/process-adapter.ts:536-717, 857-914): which receipt each call
 issues, which events each step emits, when the run ends and as what, and that a process that has really gone is in
 the end reported as gone.
 */
module ProcessOutcomes {
  import opened Common
  import opened ProcessLifecycle

  // ---------------------------------------------------------------- receipts

  /**
   The receipts: a stop says closed exactly when the facts are there; an inspection says closed then, running exactly
   when it is not closed and everything was found running, and uncertain otherwise; a failed startup with a genuine
   admission says what is known of it. No other step issues any.
   */
  lemma ReceiptsExactly(s: State, a: Action)
    requires Possible(s, a)
    ensures var closed := s.inv.closedFacts.Some?;
            Apply(s, a).receipts ==
              match a
              case StopReceipt => s.receipts + {if closed then ConfirmedClosed else Uncertain}
              case StatusReceipt(running) =>
                s.receipts + {if closed then ConfirmedClosed else if running then Running else Uncertain}
              case StartupThrows => if s.inv.genuine then s.receipts + {StartupKind(s.inv)} else s.receipts
              case _ => s.receipts
  {}

  /** An inspection that says running is right at that moment. */
  lemma RunningIsTrue(s: State, running: bool)
    requires Inv(s) && Possible(s, StatusReceipt(running)) && Running !in s.receipts
    requires Running in Apply(s, StatusReceipt(running)).receipts
    ensures running && s.truth.child == Alive && s.truth.guardian == Alive
    ensures !s.child.exitSeen && !s.child.closeSeen && s.inv.closedFacts.None?
  {}

  // ---------------------------------------------------------------- closure is confirmed

  /**
   The child is known to be gone: it never spawned, or its exit, the close of its pipes and its group's end
   were seen.
   */
  predicate ChildSeenGone(c: Child) {
    (c.exitSeen && c.closeSeen && c.groupAbsent) || (c.spawnFailed && !c.spawned && !c.pid && c.closeSeen)
  }

  /** So is the guardian; `absent` is the probe's answer for its group. */
  predicate GuardianSeenGone(g: Guardian, absent: bool) {
    || !g.attempted
    || (g.spawnFailed && !g.spawned && !g.pid && g.closeSeen)
    || (g.exitSeen && g.closeSeen && g.clean && g.pid && (g.groupAbsent || absent))
  }

  /** Observing records the closure exactly when both are seen gone, and then exactly as they were seen. */
  lemma ObservesExactly(s: State, absent: bool)
    requires Possible(s, Observe(absent))
    ensures var t := Apply(s, Observe(absent));
            if ChildSeenGone(s.child) && GuardianSeenGone(s.guardian, absent) then
              && t.inv.closedFacts.Some?
              && var f := t.inv.closedFacts.value;
              && f.childPid == s.child.pid && f.childSpawned == s.child.spawned && f.childExit == s.child.exitSeen
              && f.childStdio == s.child.closeSeen && f.groupAbsent
              && f.guardianPid == s.guardian.pid && f.guardianAttempted == s.guardian.attempted
              && f.guardianSpawned == s.guardian.spawned && f.guardianExit == s.guardian.exitSeen
              && f.guardianStdio && f.guardianGroupAbsent
            else t.inv == s.inv
  {
    var g := Probed(s.child, s.guardian, absent);
    SeenGoneIsClosed(s.child, s.guardian, absent);
    if ChildClosed(s.child) && GuardianClosed(g) { FactsAsSeen(s.child, g); }
  }

  lemma SeenGoneIsClosed(c: Child, g: Guardian, absent: bool)
    ensures ChildSeenGone(c) <==> ChildClosed(c)
    ensures var p := Probed(c, g, absent);
            && (ChildClosed(c) ==> (GuardianSeenGone(g, absent) <==> GuardianClosed(p)))
            && p.pid == g.pid && p.attempted == g.attempted && p.spawned == g.spawned && p.exitSeen == g.exitSeen
  {}

  lemma FactsAsSeen(c: Child, g: Guardian)
    requires ChildClosed(c) && GuardianClosed(g)
    ensures var f := PhysicalFacts(c, g);
            && f.childPid == c.pid && f.childSpawned == c.spawned && f.childExit == c.exitSeen
            && f.childStdio == c.closeSeen && f.groupAbsent
            && f.guardianPid == g.pid && f.guardianAttempted == g.attempted && f.guardianSpawned == g.spawned
            && f.guardianExit == g.exitSeen && f.guardianStdio && f.guardianGroupAbsent
  {}

  /** Main result: once all of it has been seen to end, the next observation makes the next stop say closed. */
  lemma GoneIsConfirmed(s: State, absent: bool)
    requires Inv(s) && s.inv.phase == Returned && Possible(s, Observe(absent))
    requires ChildSeenGone(s.child) && GuardianSeenGone(s.guardian, absent)
    ensures var actions := [Observe(absent), StopReceipt];
            && IsRun(s, actions)
            && var t := Run(s, actions);
            ConfirmedClosed in t.receipts && t.inv.closedFacts.Some? && AllGone(s.posix, t.truth)
  {
    var t := OnObserve(s, absent);
    ObservationRecords(s, absent);
    StopSaysClosed(t);
    Follows(t, StopReceipt, []);
    Follows(s, Observe(absent), [StopReceipt]);
    assert [Observe(absent)] + [StopReceipt] == [Observe(absent), StopReceipt] && [StopReceipt] + [] == [StopReceipt];
  }

  lemma ObservationRecords(s: State, absent: bool)
    requires Inv(s) && s.inv.phase == Returned && Possible(s, Observe(absent))
    requires ChildSeenGone(s.child) && GuardianSeenGone(s.guardian, absent)
    ensures var t := OnObserve(s, absent);
            t.inv.phase == Returned && t.inv.closedFacts.Some? && AllGone(t.posix, t.truth) && t.posix == s.posix
  {
    SeenGoneIsClosed(s.child, s.guardian, absent);
    ObservedIsTrue(s, absent);
  }

  lemma StopSaysClosed(s: State)
    requires s.inv.phase == Returned && s.inv.closedFacts.Some?
    ensures Possible(s, StopReceipt) && Apply(s, StopReceipt) == s.(receipts := s.receipts + {ConfirmedClosed})
  {}

  lemma Follows(s: State, a: Action, rest: seq<Action>)
    requires Possible(s, a) && IsRun(Apply(s, a), rest)
    ensures IsRun(s, [a] + rest) && Run(s, [a] + rest) == Run(Apply(s, a), rest)
  {
    assert ([a] + rest)[1..] == rest;
  }

  // ---------------------------------------------------------------- the end of the run

  /**
   The step at which the run ends: at `close` itself without a POSIX group and a stop to wait for, else
   after the wait.
   */
  predicate EndsRun(s: State, a: Action) {
    || (a.ChildCloseEvent? && !(s.posix && s.child.pid) && !s.out.stopReason)
    || (a.CloseContinues? && s.child.termination != Failed)
  }

  /**
   As what: cancelled once a stop was requested, completed on code 0 without failure and with artifacts,
   else failed.
   */
  function EndsAs(s: State, a: Action): Ending
    requires a.ChildCloseEvent? || a.CloseContinues?
  {
    if s.out.stopReason then Cancelled
    else if CloseCode(s) == 0 && !a.providerFailed && a.collected then Completed
    else FailedRun
  }

  /** What a step emits on an open run. */
  function Emits(s: State, a: Action): seq<Event> {
    if a.ChildSpawnEvent? then [Started]
    else if a.OutputArrives? then [Output]
    else if (a.ChildCloseEvent? || a.CloseContinues?) && EndsRun(s, a) then
      [if EndsAs(s, a) == Completed then Artifact else Output, Measured, Terminal(EndsAs(s, a))]
    else []
  }

  lemma ConcludesWith(o: Outcome, code: int, providerFailed: bool, collected: bool)
    requires !o.finalized && !o.ended
    ensures var p := Conclude(o, code, providerFailed, collected);
            var e := if o.stopReason then Cancelled
                     else if code == 0 && !providerFailed && collected then Completed else FailedRun;
            && p.ended && p.finalized
            && p.emitted == o.emitted + [if e == Completed then Artifact else Output, Measured, Terminal(e)]
  {}

  /** The step emits exactly its events on an open run, and ends it exactly if it is the end. */
  ghost predicate EmitsRight(s: State, a: Action, t: State) {
    && t.out.emitted == (if s.out.ended then s.out.emitted else s.out.emitted + Emits(s, a))
    && (t.out.ended <==> s.out.ended || EndsRun(s, a))
  }

  lemma CloseEmits(s: State, a: Action)
    requires Inv(s) && Possible(s, a) && a.ChildCloseEvent?
    ensures EmitsRight(s, a, Apply(s, a))
  {
    assert Apply(s, a) == OnChildClose(s, a.providerFailed, a.collected);
    ConcludesWith(s.out, CloseCode(s), a.providerFailed, a.collected);
    EmptyIsNeutral(s.out.emitted);
  }

  lemma ContinuationEmits(s: State, a: Action)
    requires Inv(s) && Possible(s, a) && a.CloseContinues?
    ensures EmitsRight(s, a, Apply(s, a))
  {
    assert Apply(s, a) == OnCloseContinues(s, a.providerFailed, a.collected);
    ConcludesWith(s.out, CloseCode(s), a.providerFailed, a.collected);
    EmptyIsNeutral(s.out.emitted);
  }

  predicate Speaks(a: Action) {
    a.ChildSpawnEvent? || a.OutputArrives? || a.ChildCloseEvent? || a.CloseContinues?
  }

  /** Most steps leave what was emitted alone. */
  lemma QuietSteps(s: State, a: Action)
    requires Possible(s, a) && !Speaks(a)
    ensures Apply(s, a).out.emitted == s.out.emitted && Apply(s, a).out.ended == s.out.ended
  {
    if a.StartOwnedRun? || BeforeSpawn(a) || AfterSpawn(a) || a.Spawn? || a.StartupContinues? { StartupIsQuiet(s, a); }
    else if GuardianEvent(a) || a.Observe? || IssuesReceipt(a) { GuardianIsQuiet(s, a); }
  }

  lemma StartupIsQuiet(s: State, a: Action)
    requires Possible(s, a) && (BeforeSpawn(a) || AfterSpawn(a) || a.Spawn? || a.StartupContinues?)
    ensures Apply(s, a).out == s.out
  {}

  lemma GuardianIsQuiet(s: State, a: Action)
    requires Possible(s, a) && (GuardianEvent(a) || a.Observe? || IssuesReceipt(a))
    ensures var t := Apply(s, a);
            t.out == s.out && t.inv == s.inv.(closedFacts := t.inv.closedFacts) && t.child == s.child
  {
    if GuardianEvent(a) { GuardianTouchesItself(s, a); }
  }

  lemma GuardianTouchesItself(s: State, a: Action)
    requires Possible(s, a) && GuardianEvent(a)
    ensures Apply(s, a) == s.(guardian := Apply(s, a).guardian)
  {}

  /**
   Main result: every step of an open run emits exactly its events, and the run ends exactly at the end of the `close`
   handler, as cancelled, completed or failed by these conditions; after the end nothing is emitted.
   */
  lemma EmitsExactly(s: State, a: Action)
    requires Inv(s) && Possible(s, a)
    ensures EmitsRight(s, a, Apply(s, a))
  {
    var t := Apply(s, a);
    assert EmitsRight(s, a, t) by {
      if a.ChildCloseEvent? { CloseEmits(s, a); }
      else if a.CloseContinues? { ContinuationEmits(s, a); }
      else { OthersEmit(s, a); }
    }
  }

  lemma OthersEmit(s: State, a: Action)
    requires Possible(s, a) && !a.ChildCloseEvent? && !a.CloseContinues?
    ensures EmitsRight(s, a, Apply(s, a))
  {
    if Speaks(a) { SingleEventEmits(s, a); } else { QuietEmits(s, a); }
  }

  lemma SingleEventEmits(s: State, a: Action)
    requires Possible(s, a) && (a.ChildSpawnEvent? || a.OutputArrives?)
    ensures EmitsRight(s, a, Apply(s, a))
  {}

  lemma QuietEmits(s: State, a: Action)
    requires Possible(s, a) && !Speaks(a)
    ensures EmitsRight(s, a, Apply(s, a))
  {
    QuietSteps(s, a);
    EmptyIsNeutral(s.out.emitted);
  }

  // ---------------------------------------------------------------- termination

  /** The steps that set termination going: a POSIX exit or close with a pid, and a kill of an unfinished run. */
  predicate Terminates(s: State, a: Action) {
    || ((a.ChildExitEvent? || a.ChildCloseEvent?) && s.posix && s.child.pid)
    || ((a.StartupKills? || a.StopRunning?) && !s.out.finalized)
  }

  lemma TerminatesExactly(s: State, a: Action)
    requires Possible(s, a) && !a.Spawn?
    ensures Apply(s, a).child.termination ==
              if a.TerminationSettles? then (if a.ok then Resolved else Failed)
              else if s.child.termination == NotBegun
                  && Terminates(s, a) then (if s.child.pid then Pending else Resolved)
              else s.child.termination
    ensures Apply(s, a).out.stopReason <==> s.out.stopReason || a.StartupKills? || a.StopRunning?
  {
    match a
    case ChildCloseEvent(_, _) => ClosingKeepsReason(s.out, CloseCode(s), a.providerFailed, a.collected);
    case CloseContinues(_, _) => ClosingKeepsReason(s.out, CloseCode(s), a.providerFailed, a.collected);
    case _ => OthersTerminate(s, a);
  }

  lemma OthersTerminate(s: State, a: Action)
    requires Possible(s, a) && !a.Spawn? && !a.ChildCloseEvent? && !a.CloseContinues?
    ensures Apply(s, a).child.termination ==
              if a.TerminationSettles? then (if a.ok then Resolved else Failed)
              else if s.child.termination == NotBegun
                  && Terminates(s, a) then (if s.child.pid then Pending else Resolved)
              else s.child.termination
    ensures Apply(s, a).out.stopReason <==> s.out.stopReason || a.StartupKills? || a.StopRunning?
  {
    if BeforeSpawn(a) || AfterSpawn(a) || a.StartupContinues? { StartupIsQuiet(s, a); StartupKeepsChild(s, a); }
    else if GuardianEvent(a) || a.Observe? || IssuesReceipt(a) { GuardianIsQuiet(s, a); }
  }

  lemma StartupKeepsChild(s: State, a: Action)
    requires Possible(s, a) && (BeforeSpawn(a) || AfterSpawn(a) || a.StartupContinues?)
    ensures Apply(s, a).child == s.child
  {}

  lemma ClosingKeepsReason(o: Outcome, code: int, providerFailed: bool, collected: bool)
    ensures Conclude(o, code, providerFailed, collected).stopReason == o.stopReason
    ensures FinishWith(o, Cancelled).stopReason == o.stopReason
  {}

  /**
   A run whose group is really gone and whose handler waits for that ends, and with code 0 and all well it
   completes.
   */
  lemma WaitingRunEnds(s: State, providerFailed: bool, collected: bool)
    requires Inv(s) && s.posix && s.out.closer == AwaitingGroup && s.child.termination == Pending && !s.truth.group
    ensures var actions := [TerminationSettles(true), CloseContinues(providerFailed, collected)];
            && IsRun(s, actions)
            && var t := Run(s, actions);
            && t.out.ended && t.child.groupAbsent
            && (!s.out.stopReason && s.truth.code == 0 && !providerFailed && collected ==>
                  Terminal(Completed) in t.out.emitted)
  {
    var a, b := TerminationSettles(true), CloseContinues(providerFailed, collected);
    var t := Apply(s, a);
    StepKeepsInv(s, a);
    EmitsExactly(s, a);
    EmitsExactly(t, b);
    Follows(t, b, []);
    Follows(s, a, [b]);
    assert [a] + [b] == [a, b] && [b] + [] == [b];
    assert s.child.pid;
  }

  // ---------------------------------------------------------------- what is seen

  /** Each event of the child sets its own flag, and nothing else does. */
  ghost predicate SeesChild(a: Action, c: Child, d: Child) {
    && d.pid == c.pid
    && (d.spawned <==> c.spawned || a.ChildSpawnEvent?)
    && (d.exitSeen <==> c.exitSeen || a.ChildExitEvent?)
    && (d.closeSeen <==> c.closeSeen || a.ChildCloseEvent?)
    && (d.spawnFailed <==> if a.ChildErrorEvent? then !c.pid else c.spawnFailed)
  }

  lemma ChildIsSeenExactly(s: State, a: Action)
    requires Possible(s, a) && !a.Spawn?
    ensures SeesChild(a, s.child, Apply(s, a).child)
  {
    if BeforeSpawn(a) || AfterSpawn(a) || a.StartupContinues? { StartupKeepsChild(s, a); }
    else if GuardianEvent(a) || a.Observe? || IssuesReceipt(a) { GuardianIsQuiet(s, a); }
  }

  /** So does each event of the guardian, which is there from the step that spawns it. */
  ghost predicate SeesGuardian(a: Action, g: Guardian, h: Guardian) {
    && h.attempted == g.attempted && h.pid == g.pid
    && (h.spawned <==> g.spawned || a.GuardianSpawnEvent?)
    && (h.exitSeen <==> g.exitSeen || a.GuardianExitEvent?)
    && (h.closeSeen <==> g.closeSeen || a.GuardianCloseEvent?)
    && (h.clean <==> if a.GuardianCloseEvent? then a.clean else g.clean)
    && (h.spawnFailed <==> g.spawnFailed || a.GuardianErrorEvent?)
  }

  lemma GuardianIsSeenExactly(s: State, a: Action)
    requires Possible(s, a) && (GuardianEvent(a) || a.Observe?)
    ensures SeesGuardian(a, s.guardian, Apply(s, a).guardian)
  {
    if a.Observe? { assert Apply(s, a) == OnObserve(s, a.absent); } else { GuardianEventIsSeen(s, a); }
  }

  lemma GuardianEventIsSeen(s: State, a: Action)
    requires Possible(s, a) && GuardianEvent(a)
    ensures SeesGuardian(a, s.guardian, Apply(s, a).guardian)
  {
    match a
    case GuardianSpawnEvent =>
    case GuardianErrorEvent =>
    case GuardianExitEvent =>
    case GuardianCloseEvent(_) =>
  }

  lemma OthersLeaveGuardian(s: State, a: Action)
    requires Possible(s, a) && !GuardianEvent(a) && !a.Observe? && !a.StartupContinues?
    ensures Apply(s, a).guardian == s.guardian
  {
    if ChildEvent(a) || Kills(a) || a.ChildCloseEvent? || a.CloseContinues? { ChildLeavesGuardian(s, a); }
  }

  lemma ChildLeavesGuardian(s: State, a: Action)
    requires Possible(s, a) && (ChildEvent(a) || Kills(a) || a.ChildCloseEvent? || a.CloseContinues?)
    ensures Apply(s, a).guardian == s.guardian
  {}

  // ---------------------------------------------------------------- startup

  /** The phases of startup, step by step; an admission is claimed once and keeps what its first presentation was. */
  lemma StartsExactly(s: State, a: Action)
    requires Possible(s, a)
    ensures Apply(s, a).inv.phase == PhaseAfter(s, a)
    ensures Apply(s, a).inv.claimed <==> s.inv.claimed || a.StartOwnedRun?
    ensures Apply(s, a).inv.genuine == if a.StartOwnedRun? && !s.inv.claimed then a.genuine else s.inv.genuine
  {
    if !MovesPhase(a) { OthersKeepPhase(s, a); }
  }

  predicate MovesPhase(a: Action) {
    || a.StartOwnedRun? || a.PreparationFails? || a.SpawnThrows? || a.Spawn? || a.StartupContinues? || a.StartupFails?
    || a.StartupReturns? || a.StartupThrows?
  }

  lemma OthersKeepPhase(s: State, a: Action)
    requires Possible(s, a) && !MovesPhase(a)
    ensures var t := Apply(s, a);
            t.inv.phase == s.inv.phase && t.inv.claimed == s.inv.claimed && t.inv.genuine == s.inv.genuine
  {
    if GuardianEvent(a) || a.Observe? || IssuesReceipt(a) { GuardianIsQuiet(s, a); }
    else if ChildEvent(a) || Kills(a) || a.ChildCloseEvent? || a.CloseContinues? { ChildKeepsInvocation(s, a); }
  }

  lemma ChildKeepsInvocation(s: State, a: Action)
    requires Possible(s, a) && (ChildEvent(a) || Kills(a) || a.ChildCloseEvent? || a.CloseContinues?)
    ensures Apply(s, a).inv == s.inv
  {}

  function PhaseAfter(s: State, a: Action): Phase {
    match a
    case StartOwnedRun(genuine) =>
      if s.inv.claimed then s.inv.phase else if genuine then Preparing else Catching
    case PreparationFails => Catching
    case SpawnThrows => Catching
    case Spawn(_) => AwaitingSpawn
    case StartupContinues(_) => AwaitingGuardian
    case StartupFails => Catching
    case StartupReturns => Returned
    case StartupThrows => Threw
    case _ => s.inv.phase
  }
}
