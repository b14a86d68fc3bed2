/**
 One owned admission of the process adapter (apps/artood/src/process-adapter.ts): the child
 and its guardian, what the adapter has observed of them, the receipts it issues and the
 lifecycle events it emits, next to what is really true of the processes.
 */
module ProcessLifecycle {
  import opened Common

  // ---------------------------------------------------------------- state

  datatype Termination = NotBegun | Pending | Resolved | Failed

  /** What the adapter knows of the child: `pid` is defined, and which events it saw. */
  datatype Child = Child(
    pid: bool, spawned: bool, spawnFailed: bool, exitSeen: bool, closeSeen: bool, groupAbsent: bool,
    termination: Termination)

  datatype Guardian = Guardian(
    attempted: bool, pid: bool, spawned: bool, spawnFailed: bool, exitSeen: bool, closeSeen: bool, clean: bool,
    groupAbsent: bool)

  /** `OwnedPhysicalFacts`. */
  datatype Facts = Facts(
    childPid: bool, childSpawned: bool, childExit: bool, childStdio: bool, groupAbsent: bool,
    guardianPid: bool, guardianAttempted: bool, guardianSpawned: bool, guardianExit: bool, guardianStdio: bool,
    guardianGroupAbsent: bool)

  /** Where `startOwnedRun` is. */
  datatype Phase = Idle | Preparing | AwaitingSpawn | AwaitingGuardian | Returned | Catching | Threw

  /** `launched`: the call to spawn returned a child object, so that its control exists. */
  datatype Invocation = Invocation(
    claimed: bool, genuine: bool, attempted: bool, launched: bool, helperUncertain: bool, phase: Phase,
    closedFacts: Option<Facts>)

  datatype Ending = Completed | FailedRun | Cancelled
  datatype Event = Started | Output | Measured | Artifact | Terminal(ending: Ending)

  /** The `close` handler: not called, waiting for the group or for a requested stop, or over. */
  datatype Closer = NotClosed | AwaitingGroup | AwaitingStop | Finished

  /** `providerFailed` and `collected` are what the handler found when it finished. */
  datatype Outcome = Outcome(
    stopReason: bool, finalized: bool, closer: Closer, providerFailed: bool, collected: bool, emitted: seq<Event>,
    ended: bool)

  datatype Kind = NotSpawned | ConfirmedClosed | Running | Uncertain

  /** The processes themselves: each is absent, alive or gone for good. */
  datatype Life = Absent | Alive | Gone
  datatype Reality = Reality(
    child: Life, code: int, group: bool, pipes: bool, guardian: Life, guardianGroup: bool, spawns: nat, guardians: nat)

  datatype State = State(
    posix: bool, child: Child, guardian: Guardian, inv: Invocation, out: Outcome, truth: Reality, receipts: set<Kind>)

  const NO_CHILD := Child(false, false, false, false, false, false, NotBegun)
  const NO_GUARDIAN := Guardian(false, false, false, false, false, false, false, false)

  function Initial(posix: bool): State {
    State(posix, NO_CHILD, NO_GUARDIAN,
          Invocation(false, false, false, false, false, Idle, None),
          Outcome(false, false, NotClosed, false, false, [], false),
          Reality(Absent, 0, false, false, Absent, false, 0, 0), {})
  }

  // ---------------------------------------------------------------- physical facts

  predicate NeverSpawned(c: Child) {
    c.spawnFailed && !c.spawned && !c.pid && c.closeSeen
  }

  predicate GuardianNeverSpawned(g: Guardian) {
    g.spawnFailed && !g.spawned && !g.pid && g.closeSeen
  }

  function PhysicalFacts(c: Child, g: Guardian): Facts {
    Facts(c.pid, c.spawned, c.exitSeen, c.closeSeen, c.groupAbsent || NeverSpawned(c),
          g.pid, g.attempted, g.spawned, g.exitSeen, g.closeSeen || !g.attempted,
          g.groupAbsent || !g.attempted || GuardianNeverSpawned(g))
  }

  predicate ChildClosed(c: Child) {
    NeverSpawned(c) || (c.exitSeen && c.closeSeen && c.groupAbsent)
  }

  predicate GuardianEnded(g: Guardian) {
    g.exitSeen && g.closeSeen && g.clean && g.pid
  }

  predicate GuardianClosed(g: Guardian) {
    !g.attempted || GuardianNeverSpawned(g) || (GuardianEnded(g) && g.groupAbsent)
  }

  /** `observeFullClosure`; `absent` is the answer of a probe of the guardian's group. */
  function Probed(c: Child, g: Guardian, absent: bool): Guardian {
    if ChildClosed(c) && g.attempted && !GuardianNeverSpawned(g) && GuardianEnded(g)
    then g.(groupAbsent := g.groupAbsent || absent) else g
  }

  function OnObserve(s: State, absent: bool): State {
    var g := Probed(s.child, s.guardian, absent);
    s.(guardian := g,
       inv := if ChildClosed(s.child) && GuardianClosed(g)
              then s.inv.(closedFacts := Some(PhysicalFacts(s.child, g))) else s.inv)
  }

  // ---------------------------------------------------------------- termination and the event queue

  function BeginTermination(c: Child): Child {
    if c.termination != NotBegun then c
    else if c.pid then c.(termination := Pending)
    else c.(termination := Resolved, groupAbsent := true)
  }

  function Push(o: Outcome, e: Event): Outcome {
    if o.ended then o else o.(emitted := o.emitted + [e])
  }

  function FinishWith(o: Outcome, ending: Ending): Outcome {
    if o.finalized then o.(closer := Finished) else
    var p := Push(Push(Push(o, Output), Measured), Terminal(ending));
    p.(finalized := true, ended := true, closer := Finished)
  }

  function Complete(o: Outcome): Outcome {
    var p := Push(Push(Push(o, Artifact), Measured), Terminal(Completed));
    p.(finalized := true, ended := true, closer := Finished)
  }

  /** The rest of the `close` handler once nothing more is awaited. */
  function Conclude(o: Outcome, code: int, providerFailed: bool, collected: bool): Outcome {
    var p := o.(providerFailed := providerFailed, collected := collected);
    if p.stopReason then FinishWith(p, Cancelled)
    else if code != 0 || providerFailed || !collected then FinishWith(p, FailedRun)
    else Complete(p)
  }

  /** A failed spawn closes with the error number, never with 0. */
  function CloseCode(s: State): int {
    if s.child.pid then s.truth.code else -1
  }

  function OnChildClose(s: State, providerFailed: bool, collected: bool): State {
    if s.posix && s.child.pid then
      s.(child := BeginTermination(s.child).(closeSeen := true), out := s.out.(closer := AwaitingGroup))
    else
      s.(child := s.child.(closeSeen := true),
         out := if s.out.stopReason then s.out.(closer := AwaitingStop)
                else Conclude(s.out, CloseCode(s), providerFailed, collected))
  }

  function OnCloseContinues(s: State, providerFailed: bool, collected: bool): State {
    s.(out := if s.child.termination == Failed then s.out.(closer := Finished)
              else if s.out.closer == AwaitingStop then FinishWith(s.out, Cancelled)
              else Conclude(s.out, CloseCode(s), providerFailed, collected))
  }

  function OnChildExit(s: State): State {
    s.(child := (if s.posix && s.child.pid then BeginTermination(s.child) else s.child).(exitSeen := true))
  }

  /** Setting a stop reason and killing: what an abort, a failed guardian and a stop request do. */
  function RequestKill(s: State): State {
    s.(out := s.out.(stopReason := true), child := if s.out.finalized then s.child else BeginTermination(s.child))
  }

  // ---------------------------------------------------------------- startup

  function OnClaim(s: State, genuine: bool): State {
    if s.inv.claimed then s
    else s.(inv := s.inv.(claimed := true, genuine := genuine, phase := if genuine then Preparing else Catching))
  }

  function OnSpawn(s: State, ok: bool): State {
    s.(inv := s.inv.(attempted := true, launched := true, phase := AwaitingSpawn),
       child := NO_CHILD.(pid := ok),
       truth := s.truth.(child := if ok then Alive else Absent, group := ok, pipes := true,
                       spawns := s.truth.spawns + if ok then 1 else 0))
  }

  function OnStartupContinues(s: State, ok: bool): State {
    if s.out.finalized || !s.child.pid then s.(inv := s.inv.(phase := AwaitingGuardian))
    else s.(inv := s.inv.(phase := AwaitingGuardian), guardian := NO_GUARDIAN.(attempted := true, pid := ok),
            truth := s.truth.(guardian := if ok then Alive else Absent, guardianGroup := ok,
                            guardians := s.truth.guardians + if ok then 1 else 0))
  }

  function StartupKind(i: Invocation): Kind {
    if i.closedFacts.Some? then (if i.closedFacts.value.childSpawned then ConfirmedClosed else NotSpawned)
    else if i.genuine && !i.attempted && !i.helperUncertain then NotSpawned else Uncertain
  }

  function OnStartupThrows(s: State): State {
    s.(inv := s.inv.(phase := Threw),
       receipts := if s.inv.genuine then s.receipts + {StartupKind(s.inv)} else s.receipts)
  }

  // ---------------------------------------------------------------- steps

  datatype Action =
    | StartOwnedRun(genuine: bool)
    | HelperStatus(uncertain: bool)
    | PreparationFails
    | SpawnThrows
    | Spawn(ok: bool)
    | ChildSpawnEvent
    | ChildErrorEvent
    | ChildExitEvent
    | ChildCloseEvent(providerFailed: bool, collected: bool)
    | TerminationSettles(ok: bool)
    | CloseContinues(providerFailed: bool, collected: bool)
    | StartupContinues(ok: bool)
    | StartupKills
    | StartupFails
    | StartupReturns
    | StartupThrows
    | GuardianSpawnEvent
    | GuardianErrorEvent
    | GuardianExitEvent
    | GuardianCloseEvent(clean: bool)
    | Observe(absent: bool)
    | StopRunning
    | StopReceipt
    | StatusReceipt(running: bool)
    | OutputArrives
    | ChildDies(code: int)
    | GroupVanishes
    | PipesClose
    | GuardianDies
    | GuardianGroupVanishes

  predicate Starting(p: Phase) {
    p == AwaitingSpawn || p == AwaitingGuardian
  }

  /** What the adapter and the operating system may do next: `exit` and `close` come only after `spawn`. */
  predicate Possible(s: State, a: Action) {
    match a
    case StartOwnedRun(_) => true
    case HelperStatus(_) => s.inv.phase == Preparing
    case PreparationFails => s.inv.phase == Preparing
    case SpawnThrows => s.inv.phase == Preparing && !s.inv.helperUncertain
    case Spawn(_) => s.inv.phase == Preparing && !s.inv.helperUncertain
    case ChildSpawnEvent => s.child.pid && !s.child.spawned
    case ChildErrorEvent => s.inv.launched && !s.child.spawned
    case ChildExitEvent => s.child.spawned && s.truth.child == Gone && !s.child.exitSeen
    case ChildCloseEvent(_, _) =>
      && s.inv.launched && !s.child.closeSeen && !s.truth.pipes
      && (if s.child.pid then s.child.spawned && s.truth.child == Gone else s.child.spawnFailed)
    case TerminationSettles(ok) => s.child.termination == Pending && (ok && s.posix ==> !s.truth.group)
    case CloseContinues(_, _) =>
      && (s.out.closer == AwaitingGroup || s.out.closer == AwaitingStop)
      && (s.child.termination == Resolved || s.child.termination == Failed)
    case StartupContinues(_) => s.inv.phase == AwaitingSpawn && s.child.spawned
    case StartupKills => s.inv.launched && Starting(s.inv.phase)
    case StartupFails => Starting(s.inv.phase)
    case StartupReturns => s.inv.phase == AwaitingGuardian
    case StartupThrows => s.inv.phase == Catching
    case GuardianSpawnEvent => s.guardian.pid && !s.guardian.spawned
    case GuardianErrorEvent => s.guardian.attempted && !s.guardian.spawned && !s.guardian.pid
    case GuardianExitEvent => s.guardian.spawned && s.truth.guardian == Gone && !s.guardian.exitSeen
    case GuardianCloseEvent(_) =>
      && s.guardian.attempted && !s.guardian.closeSeen
      && (if s.guardian.pid then s.guardian.spawned && s.truth.guardian == Gone else s.guardian.spawnFailed)
    case Observe(absent) =>
      && s.inv.launched && (absent ==> !s.truth.guardianGroup)
      && (s.inv.phase == Returned || s.inv.phase == Catching || s.out.finalized)
    case StopRunning =>
      && s.inv.launched && s.inv.closedFacts.None? && (s.inv.phase == Returned || s.inv.phase == Catching)
      && s.child.spawned && !s.child.exitSeen && !s.child.closeSeen && s.truth.child == Alive
    case StopReceipt => s.inv.phase == Returned
    case StatusReceipt(running) =>
      s.inv.phase == Returned
          && (running ==>
          s.truth.child == Alive && s.truth.guardian == Alive && !s.child.exitSeen && !s.child.closeSeen)
    case OutputArrives => s.inv.launched
    case ChildDies(_) => s.truth.child == Alive
    case GroupVanishes => s.truth.child == Gone
    case PipesClose => true
    case GuardianDies => s.truth.guardian == Alive
    case GuardianGroupVanishes => s.truth.guardian == Gone
  }

  function Apply(s: State, a: Action): State
    requires Possible(s, a)
  {
    match a
    case StartOwnedRun(genuine) => OnClaim(s, genuine)
    case HelperStatus(uncertain) => s.(inv := s.inv.(helperUncertain := uncertain))
    case PreparationFails => s.(inv := s.inv.(phase := Catching))
    case SpawnThrows => s.(inv := s.inv.(attempted := true, phase := Catching))
    case Spawn(ok) => OnSpawn(s, ok)
    case ChildSpawnEvent => s.(child := s.child.(spawned := true), out := Push(s.out, Started))
    case ChildErrorEvent => s.(child := s.child.(spawnFailed := !s.child.pid))
    case ChildExitEvent => OnChildExit(s)
    case ChildCloseEvent(providerFailed, collected) => OnChildClose(s, providerFailed, collected)
    case TerminationSettles(ok) =>
      s.(child := s.child.(termination := if ok then Resolved else Failed, groupAbsent := s.child.groupAbsent || ok))
    case CloseContinues(providerFailed, collected) => OnCloseContinues(s, providerFailed, collected)
    case StartupContinues(ok) => OnStartupContinues(s, ok)
    case StartupKills => RequestKill(s)
    case StartupFails => s.(inv := s.inv.(phase := Catching))
    case StartupReturns => s.(inv := s.inv.(phase := Returned))
    case StartupThrows => OnStartupThrows(s)
    case GuardianSpawnEvent => s.(guardian := s.guardian.(spawned := true))
    case GuardianErrorEvent => s.(guardian := s.guardian.(spawnFailed := true))
    case GuardianExitEvent => s.(guardian := s.guardian.(exitSeen := true))
    case GuardianCloseEvent(clean) => s.(guardian := s.guardian.(closeSeen := true, clean := clean))
    case Observe(absent) => OnObserve(s, absent)
    case StopRunning => RequestKill(s)
    case StopReceipt => s.(receipts := s.receipts + {if s.inv.closedFacts.Some? then ConfirmedClosed else Uncertain})
    case StatusReceipt(running) =>
      s.(receipts := s.receipts +
           {if s.inv.closedFacts.Some? then ConfirmedClosed else if running then Running else Uncertain})
    case OutputArrives => s.(out := Push(s.out, Output))
    case ChildDies(code) => s.(truth := s.truth.(child := Gone, code := code))
    case GroupVanishes => s.(truth := s.truth.(group := false))
    case PipesClose => s.(truth := s.truth.(pipes := false))
    case GuardianDies => s.(truth := s.truth.(guardian := Gone))
    case GuardianGroupVanishes => s.(truth := s.truth.(guardianGroup := false))
  }

  predicate IsRun(s: State, actions: seq<Action>)
    decreases actions
  {
    actions == [] || (Possible(s, actions[0]) && IsRun(Apply(s, actions[0]), actions[1..]))
  }

  function Run(s: State, actions: seq<Action>): State
    requires IsRun(s, actions)
    decreases actions
  {
    if actions == [] then s else Run(Apply(s, actions[0]), actions[1..])
  }

  // ---------------------------------------------------------------- invariant

  /** What the adapter has seen of the child really happened. */
  ghost predicate ChildOk(posix: bool, c: Child, r: Reality) {
    && (c.pid <==> r.child != Absent)
    && r.spawns == (if c.pid then 1 else 0)
    && (r.child == Absent ==> !r.group)
    && (c.spawned ==> c.pid) && (c.spawnFailed ==> !c.pid)
    && (c.exitSeen ==> c.spawned && r.child == Gone)
    && (c.closeSeen ==> !r.pipes && if c.pid then c.spawned && r.child == Gone else c.spawnFailed)
    && (c.groupAbsent <==> c.termination == Resolved)
    && (posix && c.groupAbsent ==> !r.group)
    && (!c.pid ==> c.termination == NotBegun || c.termination == Resolved)
  }

  ghost predicate GuardianOk(g: Guardian, r: Reality) {
    && (!g.attempted ==> g == NO_GUARDIAN)
    && (g.pid <==> r.guardian != Absent)
    && r.guardians == (if g.pid then 1 else 0)
    && (r.guardian == Absent ==> !r.guardianGroup)
    && (g.spawned ==> g.pid) && (g.spawnFailed ==> !g.pid)
    && (g.exitSeen ==> g.spawned && r.guardian == Gone)
    && (g.closeSeen ==> if g.pid then r.guardian == Gone && g.spawned else g.spawnFailed)
    && (g.groupAbsent ==> !r.guardianGroup && GuardianEnded(g))
  }

  ghost predicate PhaseOk(s: State) {
    && (!s.inv.claimed ==> s.inv.phase == Idle)
    && (s.inv.phase == Idle || s.inv.phase == Preparing ==> !s.inv.attempted)
    && (s.inv.launched ==> s.inv.attempted)
    && (!s.inv.launched ==> s.child == NO_CHILD && s.out.closer == NotClosed && !s.truth.pipes
                            && !Starting(s.inv.phase) && s.inv.phase != Returned)
    && (s.guardian.attempted ==> s.inv.launched && s.inv.phase != AwaitingSpawn)
    && (s.inv.phase == Catching ==> s.inv.claimed)
  }

  /** Closed facts were taken when everything was closed, and no guardian can follow. */
  ghost predicate ClosedOk(s: State) {
    s.inv.closedFacts.Some? ==>
      && s.inv.launched && ChildClosed(s.child) && GuardianClosed(s.guardian)
      && s.inv.closedFacts.value == PhysicalFacts(s.child, s.guardian)
      && (s.guardian.attempted || s.out.finalized || s.inv.phase == Returned || s.inv.phase == Catching
            || s.inv.phase == Threw)
  }

  ghost predicate ReceiptsOk(s: State) {
    && (ConfirmedClosed in s.receipts ==> s.inv.closedFacts.Some?)
    && (NotSpawned in s.receipts ==>
          s.inv.phase == Threw
              && (!s.inv.attempted || (s.inv.closedFacts.Some? && !s.inv.closedFacts.value.childSpawned)))
  }

  ghost predicate NoTerminal(events: seq<Event>) {
    forall k | 0 <= k < |events| :: !events[k].Terminal?
  }

  /** Before the end no terminal event; afterwards exactly one, in last place. */
  ghost predicate EmittedOk(o: Outcome) {
    && o.finalized == o.ended
    && (!o.ended ==> NoTerminal(o.emitted))
    && (o.ended ==>
          && o.closer == Finished && o.emitted != []
          && o.emitted[|o.emitted| - 1].Terminal? && NoTerminal(o.emitted[..|o.emitted| - 1]))
  }

  ghost predicate EndedAs(o: Outcome, ending: Ending) {
    o.ended && o.emitted != [] && o.emitted[|o.emitted| - 1] == Terminal(ending)
  }

  ghost predicate CompletedRun(o: Outcome) {
    EndedAs(o, Completed)
  }

  ghost predicate OutcomeOk(s: State) {
    && EmittedOk(s.out)
    && (s.out.closer == NotClosed <==> !s.child.closeSeen)
    && (s.out.closer == AwaitingGroup ==> s.posix && s.child.pid)
    && (s.out.closer == AwaitingStop ==> s.out.stopReason)
    && (s.out.ended && s.posix && s.child.pid ==> s.child.groupAbsent)
    && (EndedAs(s.out, Cancelled) ==> s.out.stopReason)
    && (CompletedRun(s.out) ==>
          && s.child.pid && s.truth.code == 0 && s.child.closeSeen && !s.out.providerFailed && s.out.collected)
  }

  ghost predicate Inv(s: State) {
    && ChildOk(s.posix, s.child, s.truth) && GuardianOk(s.guardian, s.truth)
    && PhaseOk(s) && ClosedOk(s) && ReceiptsOk(s) && OutcomeOk(s)
  }

  // ---------------------------------------------------------------- steps keep it

  lemma PushKeepsEmitted(o: Outcome, e: Event)
    requires EmittedOk(o) && !e.Terminal?
    ensures EmittedOk(Push(o, e)) && (CompletedRun(Push(o, e)) <==> CompletedRun(o))
  {}

  lemma FinishKeepsEmitted(o: Outcome, ending: Ending)
    requires EmittedOk(o) && !o.finalized
    ensures var p := FinishWith(o, ending);
            EmittedOk(p) && p.ended && p.closer == Finished
                && p.emitted == o.emitted + [Output, Measured, Terminal(ending)]
  {
    var p := FinishWith(o, ending);
    assert p.emitted == o.emitted + [Output, Measured, Terminal(ending)];
    assert p.emitted[..|p.emitted| - 1] == o.emitted + [Output, Measured];
  }

  lemma CompleteKeepsEmitted(o: Outcome)
    requires EmittedOk(o) && !o.finalized
    ensures var p := Complete(o);
            EmittedOk(p) && p.ended && p.closer == Finished
                && p.emitted == o.emitted + [Artifact, Measured, Terminal(Completed)]
  {
    var p := Complete(o);
    assert p.emitted == o.emitted + [Artifact, Measured, Terminal(Completed)];
    assert p.emitted[..|p.emitted| - 1] == o.emitted + [Artifact, Measured];
  }

  /** Cancelled when a stop was requested, else failed for any of three reasons, else completed. */
  function EndingOf(stopReason: bool, code: int, providerFailed: bool, collected: bool): Ending {
    if stopReason then Cancelled else if code == 0 && !providerFailed && collected then Completed else FailedRun
  }

  /** The end of the `close` handler ends the run with exactly one terminal event, the right one. */
  lemma Concludes(o: Outcome, code: int, providerFailed: bool, collected: bool)
    requires EmittedOk(o) && !o.finalized
    ensures var p := Conclude(o, code, providerFailed, collected);
            && EmittedOk(p) && p.ended && p.closer == Finished && p.providerFailed == providerFailed
                  && p.collected == collected
            && p.emitted[|p.emitted| - 1] == Terminal(EndingOf(o.stopReason, code, providerFailed, collected))
            && p.stopReason == o.stopReason
  {
    var q := o.(providerFailed := providerFailed, collected := collected);
    FinishKeepsEmitted(q, Cancelled);
    FinishKeepsEmitted(q, FailedRun);
    CompleteKeepsEmitted(q);
  }

  predicate ChildEvent(a: Action) {
    a.ChildSpawnEvent? || a.ChildErrorEvent? || a.ChildExitEvent? || a.TerminationSettles? || a.OutputArrives?
  }

  predicate GuardianEvent(a: Action) {
    a.GuardianSpawnEvent? || a.GuardianErrorEvent? || a.GuardianExitEvent? || a.GuardianCloseEvent?
  }

  predicate BeforeSpawn(a: Action) {
    a.StartOwnedRun? || a.HelperStatus? || a.PreparationFails? || a.SpawnThrows?
  }

  predicate AfterSpawn(a: Action) {
    a.StartupFails? || a.StartupReturns? || a.StartupThrows?
  }

  predicate Kills(a: Action) {
    a.StartupKills? || a.StopRunning?
  }

  predicate IssuesReceipt(a: Action) {
    a.StopReceipt? || a.StatusReceipt?
  }

  lemma ChildEventsKeepInv(s: State, a: Action)
    requires Inv(s) && Possible(s, a) && ChildEvent(a)
    ensures Inv(Apply(s, a))
  {
    PushKeepsEmitted(s.out, Started);
    PushKeepsEmitted(s.out, Output);
  }

  lemma ClosedOutcome(s: State, a: Action)
    requires Inv(s) && Possible(s, a) && a.ChildCloseEvent?
    ensures OutcomeOk(Apply(s, a)) && (s.out.finalized ==> Apply(s, a).out.finalized)
  {
    Concludes(s.out, CloseCode(s), a.providerFailed, a.collected);
  }

  lemma CloseKeepsInv(s: State, a: Action)
    requires Inv(s) && Possible(s, a) && a.ChildCloseEvent?
    ensures Inv(Apply(s, a))
  {
    ClosedOutcome(s, a);
  }

  /** Steps that change only what was emitted owe nothing to the other parts. */
  lemma OutcomeChanges(s: State, p: Outcome)
    requires Inv(s) && s.inv.launched && OutcomeOk(s.(out := p)) && (s.out.finalized ==> p.finalized)
    ensures Inv(s.(out := p))
  {}

  lemma ContinuedOutcome(s: State, a: Action)
    requires Inv(s) && Possible(s, a) && a.CloseContinues?
    ensures Apply(s, a) == s.(out := Apply(s, a).out) && OutcomeOk(Apply(s, a)) && !s.out.finalized
  {
    if s.child.termination != Failed {
      if s.out.closer == AwaitingStop { FinishKeepsEmitted(s.out, Cancelled); }
      else { Concludes(s.out, CloseCode(s), a.providerFailed, a.collected); }
    }
  }

  lemma CloseContinuesKeepsInv(s: State, a: Action)
    requires Inv(s) && Possible(s, a) && a.CloseContinues?
    ensures Inv(Apply(s, a))
  {
    ContinuedOutcome(s, a);
    OutcomeChanges(s, Apply(s, a).out);
  }

  lemma KillKeepsInv(s: State, a: Action)
    requires Inv(s) && Possible(s, a) && Kills(a)
    ensures Inv(Apply(s, a))
  {}

  lemma PreparationKeepsInv(s: State, a: Action)
    requires Inv(s) && Possible(s, a) && BeforeSpawn(a)
    ensures Inv(Apply(s, a))
  {}

  lemma StartupKeepsInv(s: State, a: Action)
    requires Inv(s) && Possible(s, a) && AfterSpawn(a)
    ensures Inv(Apply(s, a))
  {}

  lemma SpawnKeepsInv(s: State, a: Action)
    requires Inv(s) && Possible(s, a) && a.Spawn?
    ensures Inv(Apply(s, a))
  {}

  lemma GuardianStartKeepsInv(s: State, a: Action)
    requires Inv(s) && Possible(s, a) && a.StartupContinues?
    ensures Inv(Apply(s, a))
  {}

  lemma GuardianEventsKeepInv(s: State, a: Action)
    requires Inv(s) && Possible(s, a) && GuardianEvent(a)
    ensures Inv(Apply(s, a))
  {}

  lemma ObserveKeepsInv(s: State, a: Action)
    requires Inv(s) && Possible(s, a) && a.Observe?
    ensures Inv(Apply(s, a))
  {}

  lemma ReceiptKeepsInv(s: State, a: Action)
    requires Inv(s) && Possible(s, a) && IssuesReceipt(a)
    ensures Inv(Apply(s, a))
  {}

  lemma ProcessesKeepInv(s: State, a: Action)
    requires Inv(s) && Possible(s, a) && (a.ChildDies? || a.GroupVanishes? || a.PipesClose?)
    ensures Inv(Apply(s, a))
  {}

  lemma GuardianProcessKeepsInv(s: State, a: Action)
    requires Inv(s) && Possible(s, a) && (a.GuardianDies? || a.GuardianGroupVanishes?)
    ensures Inv(Apply(s, a))
  {}

  lemma StepKeepsInv(s: State, a: Action)
    requires Inv(s) && Possible(s, a)
    ensures Inv(Apply(s, a))
  {
    if ChildEvent(a) { ChildEventsKeepInv(s, a); }
    else if GuardianEvent(a) { GuardianEventsKeepInv(s, a); }
    else if BeforeSpawn(a) { PreparationKeepsInv(s, a); }
    else if AfterSpawn(a) { StartupKeepsInv(s, a); }
    else if Kills(a) { KillKeepsInv(s, a); }
    else if IssuesReceipt(a) { ReceiptKeepsInv(s, a); }
    else if a.ChildCloseEvent? { CloseKeepsInv(s, a); }
    else if a.CloseContinues? { CloseContinuesKeepsInv(s, a); }
    else if a.Spawn? { SpawnKeepsInv(s, a); }
    else if a.StartupContinues? { GuardianStartKeepsInv(s, a); }
    else if a.Observe? { ObserveKeepsInv(s, a); }
    else if a.GuardianDies? || a.GuardianGroupVanishes? { GuardianProcessKeepsInv(s, a); }
    else { ProcessesKeepInv(s, a); }
  }

  lemma {:induction false} RunKeepsInv(s: State, actions: seq<Action>)
    requires Inv(s) && IsRun(s, actions)
    ensures Inv(Run(s, actions))
    decreases actions
  {
    if actions != [] {
      StepKeepsInv(s, actions[0]);
      RunKeepsInv(Apply(s, actions[0]), actions[1..]);
    }
  }

  // ---------------------------------------------------------------- main results

  /** Nothing of this admission runs any more: child, its pipes, its guardian, and on POSIX both process groups. */
  predicate AllGone(posix: bool, r: Reality) {
    r.child != Alive && !r.pipes && r.guardian != Alive && (posix ==> !r.group && !r.guardianGroup)
  }

  /** Observing keeps the invariant, and facts of a closed run are true. */
  lemma ObservedIsTrue(s: State, absent: bool)
    requires Inv(s) && Possible(s, Observe(absent))
    ensures Inv(OnObserve(s, absent))
    ensures OnObserve(s, absent).inv.closedFacts.Some? ==> AllGone(s.posix, OnObserve(s, absent).truth)
  {
    StepKeepsInv(s, Observe(absent));
  }

  lemma ClosingKeepsInv(s: State, providerFailed: bool, collected: bool)
    requires Inv(s) && Possible(s, ChildCloseEvent(providerFailed, collected))
    ensures Inv(OnChildClose(s, providerFailed, collected))
    ensures Apply(s, ChildCloseEvent(providerFailed, collected)) == OnChildClose(s, providerFailed, collected)
  {
    StepKeepsInv(s, ChildCloseEvent(providerFailed, collected));
  }

  lemma KillingKeepsInv(s: State, a: Action)
    requires Inv(s) && Possible(s, a) && Kills(a)
    ensures Inv(RequestKill(s)) && Apply(s, a) == RequestKill(s)
  {
    StepKeepsInv(s, a);
  }

  /** Every `confirmed_closed` receipt ever issued is true now, whatever has happened since. */
  lemma ConfirmedReceiptsAreTrue(posix: bool, actions: seq<Action>)
    requires IsRun(Initial(posix), actions)
    ensures var s := Run(Initial(posix), actions);
            ConfirmedClosed in s.receipts || s.inv.closedFacts.Some? ==> AllGone(posix, s.truth)
  {
    RunKeepsInv(Initial(posix), actions);
    PosixIsFixed(Initial(posix), actions);
  }

  /** Every `not_spawned` receipt is true now: no child of this admission was ever created. */
  lemma NotSpawnedReceiptsAreTrue(posix: bool, actions: seq<Action>)
    requires IsRun(Initial(posix), actions) && NotSpawned in Run(Initial(posix), actions).receipts
    ensures var r := Run(Initial(posix), actions).truth; r.child == Absent && r.spawns == 0
  {
    RunKeepsInv(Initial(posix), actions);
  }

  lemma {:induction false} PosixIsFixed(s: State, actions: seq<Action>)
    requires IsRun(s, actions)
    ensures Run(s, actions).posix == s.posix
    decreases actions
  {
    if actions != [] {
      PosixIsFixed(Apply(s, actions[0]), actions[1..]);
    }
  }

  /** An admission spawns at most one child and one guardian, however often it is presented again. */
  lemma AtMostOneChild(posix: bool, actions: seq<Action>)
    requires IsRun(Initial(posix), actions)
    ensures var s := Run(Initial(posix), actions);
            s.truth.spawns <= 1 && s.truth.guardians <= 1
                && (s.inv.claimed ==> forall genuine :: OnClaim(s, genuine) == s)
  {
    RunKeepsInv(Initial(posix), actions);
  }

  predicate Implies(a: Facts, b: Facts) {
    && (a.childPid ==> b.childPid) && (a.childSpawned ==> b.childSpawned) && (a.childExit ==> b.childExit)
    && (a.childStdio ==> b.childStdio) && (a.groupAbsent ==> b.groupAbsent)
    && (a.guardianPid ==> b.guardianPid) && (a.guardianAttempted ==> b.guardianAttempted)
          && (a.guardianSpawned ==> b.guardianSpawned)
    && (a.guardianExit ==> b.guardianExit) && (a.guardianStdio ==> b.guardianStdio)
          && (a.guardianGroupAbsent ==> b.guardianGroupAbsent)
  }

  ghost predicate FactsGrow(s: State, t: State) {
    Implies(PhysicalFacts(s.child, s.guardian), PhysicalFacts(t.child, t.guardian))
  }

  predicate ChildGrows(c: Child, d: Child) {
    && (c.pid ==> d.pid) && (c.spawned ==> d.spawned) && (c.exitSeen ==> d.exitSeen) && (c.closeSeen ==> d.closeSeen)
    && (c.groupAbsent ==> d.groupAbsent) && (NeverSpawned(c) ==> NeverSpawned(d))
  }

  predicate GuardianGrows(g: Guardian, h: Guardian) {
    && (g.pid ==> h.pid) && g.attempted == h.attempted && (g.spawned ==> h.spawned) && (g.exitSeen ==> h.exitSeen)
    && (g.closeSeen ==> h.closeSeen) && (g.groupAbsent ==> h.groupAbsent)
    && (GuardianNeverSpawned(g) ==> GuardianNeverSpawned(h))
  }

  lemma FlagsGrowFacts(c: Child, d: Child, g: Guardian, h: Guardian)
    requires ChildGrows(c, d) && GuardianGrows(g, h)
    ensures Implies(PhysicalFacts(c, g), PhysicalFacts(d, h))
  {}

  lemma ChildStepsGrow(s: State, a: Action)
    requires ChildOk(s.posix, s.child, s.truth) && Possible(s, a) && (ChildEvent(a) || Kills(a))
    ensures ChildGrows(s.child, Apply(s, a).child) && Apply(s, a).guardian == s.guardian
  {}

  lemma SpawnAndCloseGrow(s: State, a: Action)
    requires Inv(s) && Possible(s, a) && (a.ChildCloseEvent? || a.Spawn?)
    ensures ChildGrows(s.child, Apply(s, a).child) && Apply(s, a).guardian == s.guardian
  {}

  lemma GuardianEventsGrow(s: State, a: Action)
    requires GuardianOk(s.guardian, s.truth) && Possible(s, a) && GuardianEvent(a)
    ensures GuardianGrows(s.guardian, Apply(s, a).guardian) && Apply(s, a).child == s.child
  {}

  lemma ObservingGrows(s: State, a: Action)
    requires Possible(s, a) && a.Observe?
    ensures GuardianGrows(s.guardian, Apply(s, a).guardian) && Apply(s, a).child == s.child
  {}

  lemma OtherStepsLeaveFacts(s: State, a: Action)
    requires Possible(s, a) && !ChildEvent(a) && !GuardianEvent(a) && !Kills(a)
    requires !a.ChildCloseEvent? && !a.Observe? && !a.Spawn? && !a.StartupContinues?
    ensures Apply(s, a).child == s.child && Apply(s, a).guardian == s.guardian
  {}

  lemma StepGrows(s: State, a: Action)
    requires Inv(s) && Possible(s, a) && !a.StartupContinues?
    ensures ChildGrows(s.child, Apply(s, a).child) && GuardianGrows(s.guardian, Apply(s, a).guardian)
  {
    if ChildEvent(a) || Kills(a) { ChildStepsGrow(s, a); }
    else if a.ChildCloseEvent? || a.Spawn? { SpawnAndCloseGrow(s, a); }
    else if GuardianEvent(a) { GuardianEventsGrow(s, a); }
    else if a.Observe? { ObservingGrows(s, a); }
    else { OtherStepsLeaveFacts(s, a); }
  }

  /** The guard under which startup spawns the guardian (process-adapter.ts:767). */
  predicate StartsGuardian(s: State, a: Action) {
    a.StartupContinues? && !s.out.finalized && s.child.pid
  }

  lemma GuardianStartShrinksFacts(s: State, ok: bool)
    requires GuardianOk(s.guardian, s.truth) && !s.guardian.attempted
    ensures FactsGrow(s, OnStartupContinues(s, ok)) <==> !StartsGuardian(s, StartupContinues(ok))
  {}

  /** A step only adds to the physical facts, unless it spawns the guardian: that one always takes some back. */
  lemma FactsGrowUntilGuardian(s: State, a: Action)
    requires Inv(s) && Possible(s, a)
    ensures FactsGrow(s, Apply(s, a)) <==> !StartsGuardian(s, a)
  {
    if a.StartupContinues? {
      GuardianStartShrinksFacts(s, a.ok);
    } else {
      StepGrows(s, a);
      FlagsGrowFacts(s.child, Apply(s, a).child, s.guardian, Apply(s, a).guardian);
    }
  }

  /** The shortest run that gets there: before it the facts say that the guardian's pipes are closed, after it not. */
  lemma GuardianTakesFactsBack(posix: bool, ok: bool)
    ensures var start := [StartOwnedRun(true), Spawn(true), ChildSpawnEvent];
            && IsRun(Initial(posix), start)
            && var s := Run(Initial(posix), start);
            && Possible(s, StartupContinues(ok)) && !FactsGrow(s, Apply(s, StartupContinues(ok)))
  {
    var start := [StartOwnedRun(true), Spawn(true), ChildSpawnEvent];
    var claimed := Apply(Initial(posix), start[0]);
    var child := Apply(claimed, start[1]);
    assert start[2..][1..] == [] && Run(child, start[2..]) == Apply(child, start[2]);
    assert start[1..][1..] == start[2..] && Run(claimed, start[1..]) == Apply(child, start[2]);
  }

  /** Once the facts of a closed run are recorded they never change, even when the closure is confirmed again. */
  lemma StepKeepsClosedFacts(s: State, a: Action)
    requires Inv(s) && Possible(s, a) && s.inv.closedFacts.Some?
    ensures Apply(s, a).inv.closedFacts == s.inv.closedFacts
  {
    if a.Observe? { ObservingAgain(s, a); }
  }

  lemma ObservingAgain(s: State, a: Action)
    requires Inv(s) && Possible(s, a) && a.Observe? && s.inv.closedFacts.Some?
    ensures Apply(s, a).inv.closedFacts == s.inv.closedFacts
  {}

  lemma {:induction false} ClosedFactsNeverChange(s: State, actions: seq<Action>)
    requires Inv(s) && IsRun(s, actions) && s.inv.closedFacts.Some?
    ensures Run(s, actions).inv.closedFacts == s.inv.closedFacts
    decreases actions
  {
    if actions != [] {
      StepKeepsInv(s, actions[0]);
      StepKeepsClosedFacts(s, actions[0]);
      ClosedFactsNeverChange(Apply(s, actions[0]), actions[1..]);
    }
  }

  lemma EndsWithTerminal(o: Outcome, k: nat)
    requires EmittedOk(o) && k < |o.emitted| && o.emitted[k].Terminal?
    ensures o.ended && k == |o.emitted| - 1
  {
    var front := if o.ended then o.emitted[..|o.emitted| - 1] else o.emitted;
    assert forall i | 0 <= i < |front| :: front[i] == o.emitted[i];
  }

  /** At most one terminal lifecycle event, and nothing is emitted after it. */
  lemma TerminalIsLast(posix: bool, actions: seq<Action>, k: nat)
    requires IsRun(Initial(posix), actions)
    requires k < |Run(Initial(posix), actions).out.emitted| && Run(Initial(posix), actions).out.emitted[k].Terminal?
    ensures var o := Run(Initial(posix), actions).out; k == |o.emitted| - 1 && o.ended
  {
    RunKeepsInv(Initial(posix), actions);
    EndsWithTerminal(Run(Initial(posix), actions).out, k);
  }

  /**
   On POSIX a completed run means: the child exited with code 0, its group is gone, no provider failure was
   seen and the artifacts were collected. All of it is still true later.
   */
  lemma CompletedMeansSuccess(actions: seq<Action>)
    requires IsRun(Initial(true), actions) && Terminal(Completed) in Run(Initial(true), actions).out.emitted
    ensures var s := Run(Initial(true), actions);
            s.truth.child == Gone && s.truth.code == 0 && !s.truth.group && !s.out.providerFailed && s.out.collected
  {
    RunKeepsInv(Initial(true), actions);
    PosixIsFixed(Initial(true), actions);
    var o := Run(Initial(true), actions).out;
    var k :| 0 <= k < |o.emitted| && o.emitted[k] == Terminal(Completed);
    TerminalIsLast(true, actions, k);
  }

  /** On POSIX no terminal event of any kind is emitted for a spawned child before its whole group is gone. */
  lemma NoEndBeforeTheGroupIsGone(actions: seq<Action>)
    requires IsRun(Initial(true), actions) && Run(Initial(true), actions).out.ended
    ensures !Run(Initial(true), actions).truth.group
  {
    RunKeepsInv(Initial(true), actions);
    PosixIsFixed(Initial(true), actions);
  }

  /** A run is cancelled only if a stop was requested. */
  lemma CancelledOnlyOnRequest(posix: bool, actions: seq<Action>)
    requires IsRun(Initial(posix), actions) && Terminal(Cancelled) in Run(Initial(posix), actions).out.emitted
    ensures Run(Initial(posix), actions).out.stopReason
  {
    RunKeepsInv(Initial(posix), actions);
    var o := Run(Initial(posix), actions).out;
    var k :| 0 <= k < |o.emitted| && o.emitted[k] == Terminal(Cancelled);
    TerminalIsLast(posix, actions, k);
  }

  /** A failed startup claims exactly what is proved: a child that is gone, or none that ever was. */
  lemma StartupReceiptIsExact(s: State)
    requires Inv(s) && Possible(s, StartupThrows) && s.inv.genuine
    ensures var kind := StartupKind(s.inv);
            && kind in Apply(s, StartupThrows).receipts
            && (kind == ConfirmedClosed <==> s.inv.closedFacts.Some? && s.truth.child == Gone)
            && (kind == NotSpawned <==>
                  s.truth.child == Absent && (s.inv.closedFacts.Some? || (!s.inv.attempted && !s.inv.helperUncertain)))
            && kind != Running
  {}

  lemma OnlyTheCloseHandlerEnds(s: State, a: Action)
    requires Possible(s, a) && !a.ChildCloseEvent? && !a.CloseContinues?
    ensures Apply(s, a).out.ended == s.out.ended
  {}

  /** And at the moment it was emitted no stop had been requested. */
  lemma CompletedWithoutStopRequest(s: State, a: Action)
    requires Inv(s) && Possible(s, a) && !s.out.ended && CompletedRun(Apply(s, a).out)
    ensures !s.out.stopReason && !Apply(s, a).out.stopReason && (s.posix ==> s.child.termination == Resolved)
  {
    if a.ChildCloseEvent? { Concludes(s.out, CloseCode(s), a.providerFailed, a.collected); }
    else if a.CloseContinues? { ContinuedOutcome(s, a); CompletesOnlyUnrequested(s, a); }
    else { OnlyTheCloseHandlerEnds(s, a); }
  }

  lemma CompletesOnlyUnrequested(s: State, a: Action)
    requires Inv(s) && Possible(s, a) && a.CloseContinues? && CompletedRun(Apply(s, a).out)
    ensures !s.out.stopReason && !Apply(s, a).out.stopReason && s.child.termination == Resolved
  {
    var t := OnCloseContinues(s, a.providerFailed, a.collected);
    assert Apply(s, a) == t;
    if s.out.closer == AwaitingStop { FinishKeepsEmitted(s.out, Cancelled); }
    else { Concludes(s.out, CloseCode(s), a.providerFailed, a.collected); }
  }
}
