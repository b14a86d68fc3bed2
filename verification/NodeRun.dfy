/**
 One run on the execution node (apps/artood/src/node-client.ts). Every map of the
 node client is keyed by run id and every handler touches only its own run's
 entries, so the behaviour of one run is the state machine below: the entries of
 that run, the handlers suspended at an `await`, and the facts of the world that
 the handlers act on. The code between two awaits is one atomic move.
 */
module NodeRun {
  import opened Common

  type TaskId = nat
  type CommandId = nat
  /** The hash that identifies a per-run allocation; only its equality matters. */
  type LaunchKey = nat

  datatype StartupOutcome = Started | StartRejected | StartCancelled | StartUncertain

  datatype Execution = Execution(deliveryPending: bool)

  /** A physical start record. `owner` is the start handler that created it. */
  datatype Physical = Physical(
    owner: TaskId, key: LaunchKey, outcome: Option<StartupOutcome>, execution: Option<Execution>, confirmedClosed: bool)

  /**
   The entries of one run in the node client's collections. A start promise and a
   writer are both named by the start handler they belong to.
   */
  datatype Shared = Shared(
    starting: Option<TaskId>, handle: Option<TaskId>, finished: bool,
    launch: Option<Option<LaunchKey>>, physical: Option<Physical>)

  /** Where a suspended handler waits. */
  datatype Pc =
    | Materializing(command: CommandId)
    | AdapterStarting(command: CommandId)
    | RejectingStart
    | Streaming
    | StoppingAfterFailure
    | ReportingFailure
    | ReportingEnd
    | Preparing(command: CommandId)
    | OwnedStarting(command: CommandId)
    | OwnedStreaming
    | AwaitingReady(command: CommandId)
    | AwaitingStart(command: CommandId, promise: TaskId)
    | StopAwaitingStart(command: CommandId, wait: Option<TaskId>)
    | StopAwaitingReady(command: CommandId)
    | StoppingAdapter(command: CommandId, writer: TaskId)
    | StoppingOwned(command: CommandId)
    | ResumeAwaitingStart(command: CommandId, wait: Option<TaskId>)
    | ResumeAwaitingReady(command: CommandId)
    | Inspecting(command: CommandId)

  datatype Code = ProcessStartFailed | ProcessExited
  datatype Verdict = Accept | Reject(code: Code)
  datatype Handler = StartHandler | StopHandler | ResumeHandler
  datatype Reply = Reply(handler: Handler, command: CommandId, verdict: Verdict)

  /** How the awaited operation came back. */
  datatype Input =
    | Succeeded
    | Failed
    | PreparationFailed(closed: bool, entered: bool)
    | StartupFailed(receipt: StartupReceipt)
    | Inspected(status: Status)

  datatype StartupReceipt = NotSpawned | ConfirmedClosed | UnconfirmedStartup
  datatype Status = StatusRunning | StatusClosed | StatusUncertain

  datatype Call = NoCall | StartWriter | StartOwnedWriter

  /** One atomic move: new entries, where the handler waits next, the reply it sends and the writer it starts. */
  datatype Move = Move(shared: Shared, next: Option<Pc>, reply: Option<Reply>, call: Call)

  function Done(sh: Shared, reply: Option<Reply>): Move { Move(sh, None, reply, NoCall) }
  function Wait(sh: Shared, pc: Pc): Move { Move(sh, Some(pc), None, NoCall) }
  function Answer(sh: Shared, h: Handler, c: CommandId, v: Verdict): Move { Done(sh, Some(Reply(h, c, v))) }

  // ---------------------------------------------------------------- run.start

  /**
   `onRunStart` up to its first await. `valid`: the allocation contract holds; `plannable`: adapter, plan
   and scope checks pass.
   */
  function OnStart(sh: Shared, me: TaskId, c: CommandId, key: Option<LaunchKey>, valid: bool, plannable: bool): Move {
    if !valid then Answer(sh, StartHandler, c, Reject(ProcessStartFailed))
    else if sh.physical.Some? then
      if key != Some(sh.physical.value.key) then Answer(sh, StartHandler, c, Reject(ProcessStartFailed))
      else Wait(sh, AwaitingReady(c))
    else if sh.starting.Some? || sh.handle.Some? || sh.finished then
      if sh.launch.Some? && sh.launch.value != key then Answer(sh, StartHandler, c, Reject(ProcessStartFailed))
      else if key.Some? && sh.starting.Some? then Wait(sh, AwaitingStart(c, sh.starting.value))
      else Answer(sh, StartHandler, c, Accept)
    else if key.Some? then
      Wait(sh.(physical := Some(Physical(me, key.value, None, None, false)), launch := Some(key)), Preparing(c))
    else
      var begun := sh.(launch := Some(None), starting := Some(me));
      if plannable then Wait(begun, Materializing(c))
      else Move(begun, Some(RejectingStart), Some(Reply(StartHandler, c, Reject(ProcessStartFailed))), NoCall)
  }

  /** The `finally` of the legacy stream: the run is finished and its handle forgotten. */
  function StreamFinally(sh: Shared): Move {
    Wait(sh.(finished := true, handle := None), ReportingEnd)
  }

  predicate LegacyPc(pc: Pc) {
    pc.Materializing? || pc.AdapterStarting? || pc.RejectingStart? || pc.Streaming? || pc.StoppingAfterFailure?
    || pc.ReportingFailure? || pc.ReportingEnd?
  }

  /** The later segments of a legacy start: `executeStart`, `streamStartedRun` and the `finally` of `onRunStart`. */
  function ContinueLegacy(sh: Shared, me: TaskId, pc: Pc, input: Input): Move
    requires LegacyPc(pc)
  {
    match pc
    case Materializing(c) =>
      if input == Succeeded then Move(sh, Some(AdapterStarting(c)), None, StartWriter)
      else Move(sh, Some(RejectingStart), Some(Reply(StartHandler, c, Reject(ProcessStartFailed))), NoCall)
    case AdapterStarting(c) =>
      if input == Succeeded then
        Move(sh.(handle := Some(me), starting := None), Some(Streaming), Some(Reply(StartHandler, c, Accept)), NoCall)
      else Move(sh, Some(RejectingStart), Some(Reply(StartHandler, c, Reject(ProcessStartFailed))), NoCall)
    case RejectingStart =>
      Done(sh.(starting := None, launch := if sh.handle == None && !sh.finished then None else sh.launch), None)
    case Streaming => if input == Succeeded then StreamFinally(sh) else Wait(sh, StoppingAfterFailure)
    case StoppingAfterFailure => if input == Succeeded then Wait(sh, ReportingFailure) else StreamFinally(sh)
    case ReportingFailure => StreamFinally(sh)
    case ReportingEnd => Done(sh.(starting := None), None)
  }

  /** `compactPhysical`: closed and delivered executions are let go. */
  function Compact(p: Physical): Physical {
    if p.confirmedClosed && !(p.execution.Some? && p.execution.value.deliveryPending) then p.(execution := None) else p
  }

  predicate PhysicalPc(pc: Pc) {
    pc.Preparing? || pc.OwnedStarting? || pc.OwnedStreaming?
  }

  /** `executePhysicalStart` after each await, and the end of the stream it tracks. */
  function ContinuePhysical(sh: Shared, pc: Pc, input: Input): Move
    requires PhysicalPc(pc) && sh.physical.Some?
  {
    var p := sh.physical.value;
    match pc
    case Preparing(c) =>
      if !input.PreparationFailed? then Move(sh, Some(OwnedStarting(c)), None, StartOwnedWriter)
      else
        var kind := if input.closed then StartCancelled else if input.entered then StartUncertain else StartRejected;
        Answer(sh.(physical := Some(p.(outcome := Some(kind), confirmedClosed := input.closed))),
               StartHandler, c, Reject(ProcessStartFailed))
    case OwnedStarting(c) =>
      if !input.StartupFailed? then
        Move(sh.(physical := Some(p.(outcome := Some(Started), execution := Some(Execution(true))))),
             Some(OwnedStreaming), Some(Reply(StartHandler, c, Accept)), NoCall)
      else
        var closed := input.receipt != UnconfirmedStartup;
        var kind := if closed then StartRejected else StartUncertain;
        Answer(sh.(physical := Some(p.(outcome := Some(kind), confirmedClosed := closed))),
               StartHandler, c, Reject(ProcessStartFailed))
    case OwnedStreaming =>
      // `Succeeded` is a confirmed stop inside the stream; anything else is the final segment.
      if input == Succeeded then Wait(sh.(physical := Some(Compact(p.(confirmedClosed := true)))), OwnedStreaming)
      else
        var e := if p.execution.Some? then p.(execution := Some(Execution(false))) else p;
        Done(sh.(physical := Some(Compact(e))), None)
  }

  /** A repeated start that waited for the original one. */
  function ContinueDuplicate(sh: Shared, pc: Pc): Move
    requires pc.AwaitingStart? || (pc.AwaitingReady? && sh.physical.Some? && sh.physical.value.outcome.Some?)
  {
    var accept := if pc.AwaitingStart? then sh.launch.Some? else sh.physical.value.outcome == Some(Started);
    Answer(sh, StartHandler, pc.command, if accept then Accept else Reject(ProcessStartFailed))
  }

  // ---------------------------------------------------------------- run.stop

  function OnStop(sh: Shared, c: CommandId): Move {
    Wait(sh, if sh.physical.Some? then StopAwaitingReady(c) else StopAwaitingStart(c, sh.starting))
  }

  predicate StopPc(sh: Shared, pc: Pc) {
    || pc.StopAwaitingStart? || pc.StoppingAdapter?
    || (sh.physical.Some? && (pc.StoppingOwned? || (pc.StopAwaitingReady? && sh.physical.value.outcome.Some?)))
  }

  function ContinueStop(sh: Shared, pc: Pc, input: Input): Move
    requires StopPc(sh, pc)
  {
    match pc
    case StopAwaitingStart(c, _) =>
      if sh.handle.Some? then Wait(sh, StoppingAdapter(c, sh.handle.value))
      else Answer(sh.(finished := true), StopHandler, c, Accept)
    case StoppingAdapter(c, _) =>
      Answer(sh, StopHandler, c, if input == Succeeded then Accept else Reject(ProcessExited))
    case StopAwaitingReady(c) =>
      if sh.physical.value.confirmedClosed then Answer(sh, StopHandler, c, Accept)
      else if sh.physical.value.execution == None then Answer(sh, StopHandler, c, Reject(ProcessStartFailed))
      else Wait(sh, StoppingOwned(c))
    case StoppingOwned(c) =>
      if input == Succeeded then
        Answer(sh.(physical := Some(Compact(sh.physical.value.(confirmedClosed := true)))), StopHandler, c, Accept)
      else Answer(sh, StopHandler, c, Reject(ProcessStartFailed))
  }

  // ---------------------------------------------------------------- run.resume

  function OnResume(sh: Shared, c: CommandId): Move {
    Wait(sh, if sh.physical.Some? then ResumeAwaitingReady(c) else ResumeAwaitingStart(c, sh.starting))
  }

  predicate ResumePc(sh: Shared, pc: Pc) {
    || pc.ResumeAwaitingStart?
    || (sh.physical.Some? && (pc.Inspecting? || (pc.ResumeAwaitingReady? && sh.physical.value.outcome.Some?)))
  }

  function ContinueResume(sh: Shared, pc: Pc, input: Input): Move
    requires ResumePc(sh, pc)
  {
    match pc
    case ResumeAwaitingStart(c, _) =>
      Answer(sh, ResumeHandler, c, if sh.handle.Some? then Accept else Reject(ProcessExited))
    case ResumeAwaitingReady(c) =>
      if sh.physical.value.execution.Some? then Wait(sh, Inspecting(c))
      else Answer(sh, ResumeHandler, c,
          Reject(if sh.physical.value.confirmedClosed then ProcessExited else ProcessStartFailed))
    case Inspecting(c) =>
      var closed := input == Inspected(StatusClosed);
      var p := if closed then sh.physical.value.(confirmedClosed := true) else sh.physical.value;
      var delivering := p.execution.Some? && p.execution.value.deliveryPending;
      if (closed || input == Inspected(StatusRunning)) && delivering then
        Answer(sh.(physical := Some(p)), ResumeHandler, c, Accept)
      else if closed then Answer(sh.(physical := Some(Compact(p))), ResumeHandler, c, Reject(ProcessExited))
      else Answer(sh, ResumeHandler, c, Reject(ProcessStartFailed))
  }

  // ---------------------------------------------------------------- the machine

  /**
   A run on the node. `live` are the writers (named by their start handler) that have
   been started and have not gone; `abandoned` those the client dropped while still
   live; `starts` and `ownedStarts` the adapter calls ever made; `replies` every
   acknowledgement sent.
   */
  datatype State = State(
    shared: Shared, tasks: map<TaskId, Pc>, next: TaskId,
    live: set<TaskId>, abandoned: set<TaskId>, starts: seq<TaskId>, ownedStarts: seq<TaskId>, replies: set<Reply>)

  function Initial(): State {
    State(Shared(None, None, false, None, None), map[], 0, {}, {}, [], [], {})
  }

  datatype Action =
    | DispatchStart(command: CommandId, key: Option<LaunchKey>, valid: bool, plannable: bool)
    | DispatchStop(command: CommandId)
    | DispatchResume(command: CommandId)
    | Continue(task: TaskId, input: Input)
    | WriterExits(writer: TaskId)

  predicate Resolved(sh: Shared, wait: Option<TaskId>) {
    wait == None || sh.starting != wait
  }

  /** The handler's await is already settled, so its continuation is queued as a microtask. */
  predicate Ready(sh: Shared, pc: Pc) {
    match pc
    case AwaitingStart(_, p) => Resolved(sh, Some(p))
    case StopAwaitingStart(_, w) => Resolved(sh, w)
    case ResumeAwaitingStart(_, w) => Resolved(sh, w)
    case AwaitingReady(_) => sh.physical.Some? && sh.physical.value.outcome.Some?
    case StopAwaitingReady(_) => sh.physical.Some? && sh.physical.value.outcome.Some?
    case ResumeAwaitingReady(_) => sh.physical.Some? && sh.physical.value.outcome.Some?
    case _ => false
  }

  predicate Awaits(pc: Pc) {
    pc.AwaitingStart? || pc.StopAwaitingStart? || pc.ResumeAwaitingStart?
    || pc.AwaitingReady? || pc.StopAwaitingReady? || pc.ResumeAwaitingReady?
  }

  /** No continuation of this run is queued: the scheduling assumption for delivering the next message. */
  predicate Quiet(s: State) {
    forall t | t in s.tasks :: !Ready(s.shared, s.tasks[t])
  }

  /** What can happen at all, whatever the scheduler does. */
  predicate Possible(s: State, a: Action) {
    match a
    case Continue(t, _) =>
      && t in s.tasks && (Awaits(s.tasks[t]) ==> Ready(s.shared, s.tasks[t]))
      && (PhysicalPc(s.tasks[t]) || s.tasks[t].StoppingOwned? || s.tasks[t].Inspecting? ==> s.shared.physical.Some?)
    case WriterExits(w) => w in s.live
    case _ => true
  }

  /** What JavaScript schedules: continuations that are ready run before the next message is dispatched. */
  predicate Scheduled(s: State, a: Action) {
    Possible(s, a) && (a.DispatchStart? || a.DispatchStop? || a.DispatchResume? ==> Quiet(s))
  }

  function MoveOf(s: State, a: Action): Move
    requires Possible(s, a) && !a.WriterExits?
  {
    match a
    case DispatchStart(c, key, valid, plannable) => OnStart(s.shared, s.next, c, key, valid, plannable)
    case DispatchStop(c) => OnStop(s.shared, c)
    case DispatchResume(c) => OnResume(s.shared, c)
    case Continue(t, input) =>
      var pc := s.tasks[t];
      if LegacyPc(pc) then ContinueLegacy(s.shared, t, pc, input)
      else if PhysicalPc(pc) then ContinuePhysical(s.shared, pc, input)
      else if pc.AwaitingStart? || pc.AwaitingReady? then ContinueDuplicate(s.shared, pc)
      else if StopPc(s.shared, pc) then ContinueStop(s.shared, pc, input)
      else ContinueResume(s.shared, pc, input)
  }

  /** The writer an answered operation proves gone: a stop that resolved, or a closing receipt. */
  function ProvedGone(s: State, t: TaskId, input: Input): set<TaskId>
    requires t in s.tasks
  {
    var owned := if s.shared.physical.Some? then {s.shared.physical.value.owner} else {};
    match s.tasks[t]
    case StoppingAdapter(_, w) => if input == Succeeded then {w} else {}
    case StoppingAfterFailure => if input == Succeeded then {t} else {}
    case StoppingOwned(_) => if input == Succeeded then owned else {}
    case OwnedStreaming => if input == Succeeded then owned else {}
    case OwnedStarting(_) => if input.StartupFailed? && input.receipt != UnconfirmedStartup then owned else {}
    case Inspecting(_) => if input == Inspected(StatusClosed) then owned else {}
    case _ => {}
  }

  /** The client drops its only reference to a writer: a rejected `adapter.start`, or the stream's `finally`. */
  predicate LetsGo(pc: Pc, next: Option<Pc>) {
    (pc.AdapterStarting? && next == Some(RejectingStart)) || (next == Some(ReportingEnd))
  }

  function Apply(s: State, a: Action): State
    requires Possible(s, a)
  {
    if a.WriterExits? then s.(live := s.live - {a.writer}) else
    var m := MoveOf(s, a);
    var me := if a.Continue? then a.task else s.next;
    var gone := if a.Continue? then ProvedGone(s, me, a.input) else {};
    var live := (if m.call == NoCall then s.live else s.live + {me}) - gone;
    State(
      m.shared,
      if m.next.Some? then s.tasks[me := m.next.value] else s.tasks - {me},
      if a.Continue? then s.next else s.next + 1,
      live,
      if a.Continue? && LetsGo(s.tasks[me], m.next) && me in live then s.abandoned + {me} else s.abandoned,
      if m.call == StartWriter then s.starts + [me] else s.starts,
      if m.call == StartOwnedWriter then s.ownedStarts + [me] else s.ownedStarts,
      if m.reply.Some? then s.replies + {m.reply.value} else s.replies)
  }

  predicate IsRun(s: State, actions: seq<Action>)
    decreases actions
  {
    actions == [] || (Scheduled(s, actions[0]) && IsRun(Apply(s, actions[0]), actions[1..]))
  }

  function Run(s: State, actions: seq<Action>): State
    requires IsRun(s, actions)
    decreases actions
  {
    if actions == [] then s else Run(Apply(s, actions[0]), actions[1..])
  }

  // ---------------------------------------------------------------- the invariant

  predicate StartsWriter(pc: Pc) { pc.Materializing? || pc.AdapterStarting? || pc.RejectingStart? }
  predicate Streams(pc: Pc) { pc.Streaming? || pc.StoppingAfterFailure? || pc.ReportingFailure? }

  predicate StopAccepted(s: State, c: CommandId) {
    Reply(StopHandler, c, Accept) in s.replies
  }

  /** The run can never get a writer again. */
  predicate Fenced(sh: Shared) {
    if sh.physical.Some? then sh.physical.value.confirmedClosed
    else sh.starting == None && (sh.finished || sh.handle.Some?)
  }

  ghost predicate TasksAgree(s: State) {
    forall t | t in s.tasks ::
      var pc, sh := s.tasks[t], s.shared;
      && t < s.next
      && (StartsWriter(pc) <==> sh.starting == Some(t))
      && (Streams(pc) <==> sh.handle == Some(t))
      && (pc.ReportingEnd? ==> sh.finished)
      && (PhysicalPc(pc) ==> sh.physical.Some? && sh.physical.value.owner == t)
      && (pc.Preparing? || pc.OwnedStarting? ==> sh.physical.value.outcome == None)
      && (pc.OwnedStreaming? ==> sh.physical.value.outcome == Some(Started))
      && (pc.StopAwaitingStart? || pc.ResumeAwaitingStart? || pc.StoppingAdapter? ==> sh.physical == None)
      && (pc.StoppingAdapter? ==> sh.starting == None && (sh.finished || sh.handle == Some(pc.writer)))
      && (pc.StopAwaitingReady? || pc.StoppingOwned? || pc.ResumeAwaitingReady? || pc.Inspecting? || pc.AwaitingReady?
          ==> sh.physical.Some?)
      && (pc.StoppingOwned? || pc.Inspecting? ==> sh.physical.value.outcome == Some(Started))
      && ((pc.AwaitingStart? || pc.StopAwaitingStart? || pc.ResumeAwaitingStart?) && Ready(sh, pc) ==>
            sh.starting == None)
  }

  ghost predicate SharedAgrees(s: State) {
    var sh := s.shared;
    && (sh.starting.Some? ==> sh.starting.value in s.tasks && sh.handle == None && !sh.finished && sh.physical == None)
    && (sh.handle.Some? ==> sh.handle.value in s.tasks && !sh.finished && sh.physical == None)
    && (sh.finished ==> sh.physical == None)
    && (sh.physical.Some? ==>
          var p := sh.physical.value;
          && p.owner < s.next
          && (p.outcome == None ==>
                p.owner in s.tasks && (s.tasks[p.owner].Preparing? || s.tasks[p.owner].OwnedStarting?)
                && !p.confirmedClosed)
          && (p.execution.Some? ==> p.outcome == Some(Started)))
  }

  /** Why a live writer may be live. */
  predicate Justified(s: State, w: TaskId) {
    || (w in s.tasks && s.tasks[w].AdapterStarting?)
    || s.shared.handle == Some(w)
    || (s.shared.physical.Some? && s.shared.physical.value.owner == w && !s.shared.physical.value.confirmedClosed)
  }

  ghost predicate WritersAgree(s: State) {
    && (forall w | w in s.live :: w < s.next && (Justified(s, w) || w in s.abandoned))
    && (s.shared.physical.Some? ==>
          && (s.ownedStarts == [] || s.ownedStarts == [s.shared.physical.value.owner])
          && (s.shared.physical.value.owner in s.tasks && s.tasks[s.shared.physical.value.owner].Preparing? ==>
                s.ownedStarts == [] && s.shared.physical.value.owner !in s.live))
    && (s.shared.physical == None ==> s.ownedStarts == [])
  }

  ghost predicate StopsAgree(s: State) {
    forall r | r in s.replies && r.handler == StopHandler && r.verdict == Accept ::
      Fenced(s.shared) && s.live <= s.abandoned
  }

  ghost predicate Inv(s: State) {
    TasksAgree(s) && SharedAgrees(s) && WritersAgree(s) && StopsAgree(s)
  }

  /** The start takes the branch that begins a new launch. */
  predicate Begins(sh: Shared, a: Action) {
    a.DispatchStart? && a.valid && sh.physical == None && sh.starting == None && sh.handle == None && !sh.finished
  }

  lemma BeginKeepsInv(s: State, a: Action)
    requires Inv(s) && Scheduled(s, a) && Begins(s.shared, a)
    ensures Inv(Apply(s, a))
  {
    // Nothing of this run is suspended: every kind of waiting handler leaves a trace in the maps.
    assert s.tasks == map[];
  }

  lemma AnswerKeepsInv(s: State, a: Action)
    requires Inv(s) && Scheduled(s, a) && a.DispatchStart?
    requires MoveOf(s, a).next == None
    ensures Inv(Apply(s, a))
  {
    assert Apply(s, a).tasks == s.tasks && Apply(s, a).shared == s.shared;
  }

  lemma DuplicateKeepsInv(s: State, a: Action)
    requires Inv(s) && Scheduled(s, a) && a.DispatchStart? && !Begins(s.shared, a)
    requires MoveOf(s, a).next != None
    ensures Inv(Apply(s, a))
  {
    assert Apply(s, a).shared == s.shared;
  }

  lemma StopDispatchKeepsInv(s: State, a: Action)
    requires Inv(s) && (a.DispatchStop? || a.DispatchResume?) && Scheduled(s, a)
    ensures Inv(Apply(s, a))
  {}

  lemma LegacyStartKeepsInv(s: State, a: Action)
    requires Inv(s) && a.Continue? && Possible(s, a) && StartsWriter(s.tasks[a.task])
    ensures Inv(Apply(s, a))
  {
    match s.tasks[a.task]
    case Materializing(_) =>
    case AdapterStarting(_) =>
    case RejectingStart =>
  }

  lemma LegacyStreamKeepsInv(s: State, a: Action)
    requires Inv(s) && a.Continue? && Possible(s, a) && LegacyPc(s.tasks[a.task]) && !StartsWriter(s.tasks[a.task])
    ensures Inv(Apply(s, a))
  {
    match s.tasks[a.task]
    case Streaming =>
    case StoppingAfterFailure =>
    case ReportingFailure =>
    case ReportingEnd =>
  }

  lemma PhysicalKeepsInv(s: State, a: Action)
    requires Inv(s) && a.Continue? && Possible(s, a) && PhysicalPc(s.tasks[a.task])
    ensures Inv(Apply(s, a))
  {
    match s.tasks[a.task]
    case Preparing(_) =>
    case OwnedStarting(_) =>
    case OwnedStreaming =>
  }

  lemma StopKeepsInv(s: State, a: Action)
    requires Inv(s) && a.Continue? && Possible(s, a) && StopPc(s.shared, s.tasks[a.task])
    ensures Inv(Apply(s, a))
  {}

  lemma OthersKeepInv(s: State, a: Action)
    requires Inv(s) && a.Continue? && Possible(s, a)
    requires !LegacyPc(s.tasks[a.task]) && !PhysicalPc(s.tasks[a.task]) && !StopPc(s.shared, s.tasks[a.task])
    ensures Inv(Apply(s, a))
  {}

  lemma StepKeepsInv(s: State, a: Action)
    requires Inv(s) && Scheduled(s, a)
    ensures Inv(Apply(s, a))
  {
    if a.DispatchStart? {
      if Begins(s.shared, a) { BeginKeepsInv(s, a); }
      else if MoveOf(s, a).next == None { AnswerKeepsInv(s, a); }
      else { DuplicateKeepsInv(s, a); }
    } else if a.DispatchStop? || a.DispatchResume? {
      StopDispatchKeepsInv(s, a);
    } else if a.Continue? {
      var pc := s.tasks[a.task];
      if StartsWriter(pc) { LegacyStartKeepsInv(s, a); }
      else if LegacyPc(pc) { LegacyStreamKeepsInv(s, a); }
      else if PhysicalPc(pc) { PhysicalKeepsInv(s, a); }
      else if StopPc(s.shared, pc) { StopKeepsInv(s, a); }
      else { OthersKeepInv(s, a); }
    }
  }

  lemma {:induction false} RunKeepsInv(s: State, actions: seq<Action>)
    requires Inv(s) && IsRun(s, actions)
    ensures Inv(Run(s, actions))
    decreases actions
  {
    if actions != [] {
      StepKeepsInv(s, actions[0]);
      RunKeepsInv(Apply(s, actions[0]), actions[1..]);
    }
  }

  // ---------------------------------------------------------------- what it means

  /** A writer the client is starting or still answers for. */
  ghost predicate Held(s: State, w: TaskId) {
    w in s.live && w !in s.abandoned
  }

  /** Main result: however starts, stops and resumes are repeated and interleaved, a run has at most one writer. */
  lemma AtMostOneWriter(actions: seq<Action>, v: TaskId, w: TaskId)
    requires IsRun(Initial(), actions)
    requires Held(Run(Initial(), actions), v) && Held(Run(Initial(), actions), w)
    ensures v == w
  {
    RunKeepsInv(Initial(), actions);
  }

  /** Everything that only ever moves one way. */
  ghost predicate Advances(s: State, t: State) {
    && s.replies <= t.replies && s.abandoned <= t.abandoned
    && s.starts <= t.starts && s.ownedStarts <= t.ownedStarts
    && (s.shared.finished ==> t.shared.finished)
    && (s.shared.physical.Some? ==>
          && t.shared.physical.Some? && t.shared.physical.value.owner == s.shared.physical.value.owner
          && t.shared.physical.value.key == s.shared.physical.value.key
          && (s.shared.physical.value.confirmedClosed ==> t.shared.physical.value.confirmedClosed))
    && (s.shared.finished ==> t.starts == s.starts && t.ownedStarts == s.ownedStarts)
    && (s.shared.physical.Some? ==> t.starts == s.starts)
    && (Fenced(s.shared) ==>
          Fenced(t.shared) && t.starts == s.starts && t.ownedStarts == s.ownedStarts && t.live <= s.live)
  }

  lemma StepAdvances(s: State, a: Action)
    requires Inv(s) && Scheduled(s, a)
    ensures Advances(s, Apply(s, a))
  {}

  /**
   Once finished, tombstoned, physically started or fenced, a run stays so, and the adapter is not called
   for it again.
   */
  lemma {:induction false} RunAdvances(s: State, actions: seq<Action>)
    requires Inv(s) && IsRun(s, actions)
    ensures Advances(s, Run(s, actions))
    decreases actions
  {
    if actions != [] {
      StepAdvances(s, actions[0]);
      StepKeepsInv(s, actions[0]);
      RunAdvances(Apply(s, actions[0]), actions[1..]);
    }
  }

  /** A per-run allocation reaches `startOwnedRun` at most once in the life of the client, and never both ways. */
  lemma OwnedStartHappensOnce(actions: seq<Action>)
    requires IsRun(Initial(), actions)
    ensures var s := Run(Initial(), actions);
            |s.ownedStarts| <= 1 && (s.ownedStarts != [] ==> s.shared.physical.Some?)
  {
    RunKeepsInv(Initial(), actions);
  }

  /**
   Main result for `run.stop`: from the moment one is accepted, in every later state, no
   writer runs except one the client had already abandoned, and none is ever started again.
   */
  lemma AcceptedStopIsFinal(before: seq<Action>, after: seq<Action>, c: CommandId)
    requires IsRun(Initial(), before) && StopAccepted(Run(Initial(), before), c)
    requires IsRun(Run(Initial(), before), after)
    ensures var s, t := Run(Initial(), before), Run(Run(Initial(), before), after);
            t.live <= s.live * s.abandoned && t.starts == s.starts && t.ownedStarts == s.ownedStarts
  {
    RunKeepsInv(Initial(), before);
    RunAdvances(Run(Initial(), before), after);
  }

  // ---------------------------------------------------------------- one stream per run

  /** The handler enters `streamStartedRun`, whose first event takes sequence 0. */
  predicate BeginsStream(s: State, a: Action)
    requires Possible(s, a)
  {
    a.Continue? &&
    match MoveOf(s, a).next
    case Some(Streaming) => true
    case Some(OwnedStreaming) => s.tasks[a.task].OwnedStarting?
    case _ => false
  }

  /** The handlers of this run that enter it, in order. */
  function StreamsBegun(s: State, actions: seq<Action>): seq<TaskId>
    requires IsRun(s, actions)
    decreases actions
  {
    if actions == [] then [] else
    var begun := if BeginsStream(s, actions[0]) then [actions[0].task] else [];
    begun + StreamsBegun(Apply(s, actions[0]), actions[1..])
  }

  /** The run has had its stream, or can no longer get one. */
  predicate Committed(sh: Shared) {
    sh.handle.Some? || sh.finished || (sh.physical.Some? && sh.physical.value.outcome == Some(Started))
  }

  lemma StreamCommits(s: State, a: Action)
    requires Inv(s) && Scheduled(s, a) && BeginsStream(s, a)
    ensures !Committed(s.shared) && Committed(Apply(s, a).shared)
  {}

  lemma CommittedStays(s: State, a: Action)
    requires Inv(s) && Scheduled(s, a) && Committed(s.shared)
    ensures Committed(Apply(s, a).shared)
  {}

  lemma {:induction false} CommittedStreamsNoMore(s: State, actions: seq<Action>)
    requires Inv(s) && IsRun(s, actions)
    ensures |StreamsBegun(s, actions)| <= if Committed(s.shared) then 0 else 1
    decreases actions
  {
    if actions != [] {
      var a := actions[0];
      StepKeepsInv(s, a);
      if BeginsStream(s, a) { StreamCommits(s, a); }
      if Committed(s.shared) { CommittedStays(s, a); }
      CommittedStreamsNoMore(Apply(s, a), actions[1..]);
    }
  }

  /**
   However often start commands of a run are repeated, at most one handler of that run ever streams its events:
   so the sequence numbers of a run come from one counter.
   */
  lemma OneStreamPerRun(actions: seq<Action>)
    requires IsRun(Initial(), actions)
    ensures |StreamsBegun(Initial(), actions)| <= 1
  {
    CommittedStreamsNoMore(Initial(), actions);
  }

  // ---------------------------------------------------------------- writers the client lost sight of

  /** A task that has not called its adapter yet has no writer of its own, past or present. */
  ghost predicate Tidy(s: State) {
    && (forall w | w in s.abandoned :: w < s.next)
    && (forall t | t in s.tasks && (s.tasks[t].Materializing? || s.tasks[t].Preparing?) :: t !in s.live
          && t !in s.abandoned)
  }

  lemma StepKeepsTidy(s: State, a: Action)
    requires Inv(s) && Tidy(s) && Scheduled(s, a)
    ensures Tidy(Apply(s, a))
  {}

  /** This step calls the adapter to start a writer. */
  predicate Launches(s: State, a: Action) {
    Possible(s, a) && a.Continue? && MoveOf(s, a).call != NoCall
  }

  /** Writers whose legacy `adapter.start` has rejected: the client holds no handle on what they left running. */
  function RejectedAfter(s: State, rejected: set<TaskId>, a: Action): set<TaskId> {
    if Possible(s, a) && a.Continue? && s.tasks[a.task].AdapterStarting? && a.input != Succeeded
    then rejected + {a.task}
    else rejected
  }

  /** Before a run is finished, every writer it has lost sight of comes from such a rejection. */
  ghost predicate LostByRejection(s: State, rejected: set<TaskId>) {
    !s.shared.finished ==> s.live * s.abandoned <= rejected
  }

  lemma StepKeepsLost(s: State, rejected: set<TaskId>, a: Action)
    requires Inv(s) && Tidy(s) && LostByRejection(s, rejected) && Scheduled(s, a)
    ensures LostByRejection(Apply(s, a), RejectedAfter(s, rejected, a))
  {}

  ghost predicate Single(writers: set<TaskId>) {
    forall v, w | v in writers && w in writers :: v == w
  }

  /**
   A launch finds another writer alive exactly when one whose `adapter.start` rejected has not exited, and
   then there are two.
   */
  lemma LaunchBesideRejected(s: State, rejected: set<TaskId>, a: Action)
    requires Inv(s) && Tidy(s) && LostByRejection(s, rejected) && Scheduled(s, a) && Launches(s, a)
    ensures a.task !in s.live && Apply(s, a).live == s.live + {a.task}
    ensures s.live != {} <==> s.live * rejected != {}
  {
    forall w | w in s.live ensures w in s.abandoned { assert Justified(s, w) || w in s.abandoned; }
    if s.live != {} {
      var w :| w in s.live;
      assert w in s.live * rejected;
    }
  }

  lemma OnlyLaunchesAdd(s: State, a: Action)
    requires Scheduled(s, a) && !Launches(s, a)
    ensures Apply(s, a).live <= s.live
  {}

  /** Some step of the run launches a writer while one whose `adapter.start` rejected earlier has not exited. */
  predicate EverLaunchesBeside(s: State, rejected: set<TaskId>, actions: seq<Action>)
    requires IsRun(s, actions)
    decreases actions
  {
    actions != [] &&
    ((Launches(s, actions[0]) && s.live * rejected != {})
     || EverLaunchesBeside(Apply(s, actions[0]), RejectedAfter(s, rejected, actions[0]), actions[1..]))
  }

  ghost predicate AlwaysSingle(s: State, actions: seq<Action>)
    requires IsRun(s, actions)
    decreases actions
  {
    Single(s.live) && (actions == [] || AlwaysSingle(Apply(s, actions[0]), actions[1..]))
  }

  lemma {:induction false} SingleIffNoLaunchBeside(s: State, rejected: set<TaskId>, actions: seq<Action>)
    requires Inv(s) && Tidy(s) && LostByRejection(s, rejected) && IsRun(s, actions) && Single(s.live)
    ensures AlwaysSingle(s, actions) <==> !EverLaunchesBeside(s, rejected, actions)
    decreases actions
  {
    if actions != [] {
      var a := actions[0];
      var t := Apply(s, a);
      StepKeepsInv(s, a);
      StepKeepsTidy(s, a);
      StepKeepsLost(s, rejected, a);
      if Launches(s, a) { LaunchBesideRejected(s, rejected, a); } else { OnlyLaunchesAdd(s, a); }
      if Launches(s, a) && s.live != {} {
        var w :| w in s.live;
        assert w in t.live && a.task in t.live && w != a.task;
      } else {
        SingleIffNoLaunchBeside(t, RejectedAfter(s, rejected, a), actions[1..]);
      }
    }
  }

  /**
   The exact condition for one writer per run, abandoned or not: in every state of a run at most one process is alive if
   and only if no launch is made while a process left behind by a rejected legacy `adapter.start` is still running.
   */
  lemma OneProcessIff(actions: seq<Action>)
    requires IsRun(Initial(), actions)
    ensures AlwaysSingle(Initial(), actions) <==> !EverLaunchesBeside(Initial(), {}, actions)
  {
    SingleIffNoLaunchBeside(Initial(), {}, actions);
  }

  // ---------------------------------------------------------------- when a confirmed stop is not enough

  /**
   The two moves that can abandon a writer: a legacy `adapter.start` that rejects and the
   `finally` of a legacy stream, when the process is in fact still there.
   */
  predicate Abandons(s: State, a: Action) {
    && Possible(s, a) && a.Continue?
    && var pc := s.tasks[a.task];
       && a.task in s.live && a.task !in s.abandoned
       && (pc.ReportingFailure? || (if pc.Streaming? then a.input == Succeeded
                                    else (pc.AdapterStarting? || pc.StoppingAfterFailure?) && a.input != Succeeded))
  }

  predicate EverAbandons(s: State, actions: seq<Action>)
    requires IsRun(s, actions)
    decreases actions
  {
    actions != [] && (Abandons(s, actions[0]) || EverAbandons(Apply(s, actions[0]), actions[1..]))
  }

  lemma AbandonsExactly(s: State, a: Action)
    requires Inv(s) && Scheduled(s, a)
    ensures Apply(s, a).abandoned == if Abandons(s, a) then s.abandoned + {a.task} else s.abandoned
  {}

  lemma {:induction false} AbandonedIffAbandons(s: State, actions: seq<Action>)
    requires Inv(s) && IsRun(s, actions)
    ensures Run(s, actions).abandoned != s.abandoned <==> EverAbandons(s, actions)
    decreases actions
  {
    if actions != [] {
      AbandonsExactly(s, actions[0]);
      StepAdvances(s, actions[0]);
      StepKeepsInv(s, actions[0]);
      AbandonedIffAbandons(Apply(s, actions[0]), actions[1..]);
      RunAdvances(Apply(s, actions[0]), actions[1..]);
    }
  }

  /** Writers a step shows to be gone: one that exits, or one whose stop or closing receipt says so. */
  function GoneBy(s: State, a: Action): set<TaskId>
    requires Possible(s, a)
  {
    if a.WriterExits? then {a.writer} else if a.Continue? then ProvedGone(s, a.task, a.input) else {}
  }

  /** The writers abandoned in a run that have neither exited nor been proved gone since. */
  function Forsaken(s: State, before: set<TaskId>, actions: seq<Action>): set<TaskId>
    requires IsRun(s, actions)
    decreases actions
  {
    if actions == [] then before else
    var a := actions[0];
    Forsaken(Apply(s, a), (if Abandons(s, a) then before + {a.task} else before) - GoneBy(s, a), actions[1..])
  }

  lemma AbandonedAlive(s: State, a: Action)
    requires Inv(s) && Tidy(s) && Scheduled(s, a)
    ensures var t := Apply(s, a);
            t.live * t.abandoned ==
            (if Abandons(s, a) then s.live * s.abandoned + {a.task} else s.live * s.abandoned) - GoneBy(s, a)
  {
    AbandonsExactly(s, a);
    if Launches(s, a) {
      assert Apply(s, a).live == (s.live + {a.task}) - GoneBy(s, a);
    } else {
      assert Apply(s, a).live == s.live - GoneBy(s, a);
    }
  }

  lemma {:induction false} ForsakenAreTheAbandonedAlive(s: State, actions: seq<Action>)
    requires Inv(s) && Tidy(s) && IsRun(s, actions)
    ensures Run(s, actions).live * Run(s, actions).abandoned == Forsaken(s, s.live * s.abandoned, actions)
    decreases actions
  {
    if actions != [] {
      StepKeepsInv(s, actions[0]);
      StepKeepsTidy(s, actions[0]);
      AbandonedAlive(s, actions[0]);
      ForsakenAreTheAbandonedAlive(Apply(s, actions[0]), actions[1..]);
    }
  }

  /**
   What an accepted stop is worth, exactly: the writers still alive are those abandoned in the run that have neither
   exited nor been proved gone since. So none is alive if and only if there is no such writer.
   */
  lemma AcceptedStopLeavesTheForsaken(actions: seq<Action>, c: CommandId)
    requires IsRun(Initial(), actions) && StopAccepted(Run(Initial(), actions), c)
    ensures Run(Initial(), actions).live == Forsaken(Initial(), {}, actions)
  {
    RunKeepsInv(Initial(), actions);
    assert Initial().live * Initial().abandoned == {};
    ForsakenAreTheAbandonedAlive(Initial(), actions);
    var s := Run(Initial(), actions);
    assert s.live * s.abandoned == s.live;
  }

  /** In particular, if no writer was ever abandoned, an accepted stop means that no writer runs at all. */
  lemma AcceptedStopMeansNoWriter(actions: seq<Action>, c: CommandId)
    requires IsRun(Initial(), actions) && !EverAbandons(Initial(), actions)
    requires StopAccepted(Run(Initial(), actions), c)
    ensures Run(Initial(), actions).live == {}
  {
    RunKeepsInv(Initial(), actions);
    AbandonedIffAbandons(Initial(), actions);
  }

  /** With a legacy run that has left the maps, the next stop is accepted at once and stops nothing. */
  lemma StopAfterTheMapsForgot(s: State, c: CommandId)
    requires Inv(s) && Quiet(s)
    requires s.shared.physical == None && s.shared.starting == None && s.shared.handle == None
    ensures var actions := [DispatchStop(c), Continue(s.next, Succeeded)];
            IsRun(s, actions) && StopAccepted(Run(s, actions), c) && Run(s, actions).live == s.live
  {
    var a, b := DispatchStop(c), Continue(s.next, Succeeded);
    var u := Apply(s, a);
    assert u.tasks[s.next] == StopAwaitingStart(c, None);
    Follows(u, b, Apply(u, b), []);
    Follows(s, a, u, [b]);
    assert Reply(StopHandler, c, Accept) in Apply(u, b).replies;
  }

  /** The first step of a run. */
  lemma Follows(s: State, a: Action, t: State, rest: seq<Action>)
    requires Scheduled(s, a) && t == Apply(s, a) && IsRun(t, rest)
    ensures IsRun(s, [a] + rest) && Run(s, [a] + rest) == Run(t, rest)
  {
    assert ([a] + rest)[1..] == rest;
  }

  // ---------------------------------------------------------------- a start that rejects with its process running

  /**
   A start is dispatched, its adapter call is made, the call rejects, and the handler ends; the process
   never exits.
   */
  const REJECTED_START :=
    [DispatchStart(0, None, true, true), Continue(0, Succeeded), Continue(0, Failed), Continue(0, Succeeded)]

  const START_REJECTED := Reply(StartHandler, 0, Reject(ProcessStartFailed))

  /** The client has forgotten the run; its first writer is alive. */
  const LEFT_BEHIND := State(Initial().shared, map[], 1, {0}, {0}, [0], [], {START_REJECTED})

  /** The adapter has been called, and its writer runs. */
  const CALLED :=
    State(Initial().shared.(starting := Some(0), launch := Some(None)),
          map[0 := AdapterStarting(0)], 1, {0}, {}, [0], [], {})

  lemma RejectionForgetsTheWriter()
    ensures var actions := [Continue(0, Failed), Continue(0, Succeeded)];
            IsRun(CALLED, actions) && Run(CALLED, actions) == LEFT_BEHIND
  {
    var rejecting := CALLED.(tasks := map[0 := RejectingStart], abandoned := {0}, replies := {START_REJECTED});
    Follows(rejecting, Continue(0, Succeeded), LEFT_BEHIND, []);
    Follows(CALLED, Continue(0, Failed), rejecting, [Continue(0, Succeeded)]);
  }

  /** The start has been dispatched, and its adapter is about to be called. */
  const BEGUN := CALLED.(tasks := map[0 := Materializing(0)], live := {}, starts := [])

  lemma AdapterIsCalled()
    ensures Scheduled(BEGUN, Continue(0, Succeeded)) && CALLED == Apply(BEGUN, Continue(0, Succeeded))
  {}

  lemma LaunchThenRejection()
    ensures var rest := [Continue(0, Succeeded), Continue(0, Failed), Continue(0, Succeeded)];
            IsRun(BEGUN, rest) && Run(BEGUN, rest) == LEFT_BEHIND
  {
    var end := [Continue(0, Failed), Continue(0, Succeeded)];
    RejectionForgetsTheWriter();
    AdapterIsCalled();
    Follows(BEGUN, Continue(0, Succeeded), CALLED, end);
    assert [Continue(0, Succeeded)] + end == [Continue(0, Succeeded), Continue(0, Failed), Continue(0, Succeeded)];
  }

  lemma RejectedStartLeavesAWriter()
    ensures IsRun(Initial(), REJECTED_START) && Run(Initial(), REJECTED_START) == LEFT_BEHIND
  {
    var rest := [Continue(0, Succeeded), Continue(0, Failed), Continue(0, Succeeded)];
    LaunchThenRejection();
    Follows(Initial(), DispatchStart(0, None, true, true), BEGUN, rest);
    assert REJECTED_START == [DispatchStart(0, None, true, true)] + rest;
  }

  lemma {:induction false} RunsCompose(s: State, first: seq<Action>, second: seq<Action>)
    requires IsRun(s, first) && IsRun(Run(s, first), second)
    ensures IsRun(s, first + second) && Run(s, first + second) == Run(Run(s, first), second)
    decreases first
  {
    if first == [] {
      EmptyIsNeutral(second);
    } else {
      RunsCompose(Apply(s, first[0]), first[1..], second);
      Associative([first[0]], first[1..], second);
      assert first == [first[0]] + first[1..];
      Follows(s, first[0], Apply(s, first[0]), first[1..] + second);
    }
  }

  /** A repeated start then launches a second writer beside the first: two processes, both alive, for one run. */
  lemma TwoWritersAfterARejectedStart()
    ensures var actions := REJECTED_START + [DispatchStart(1, None, true, true), Continue(1, Succeeded)];
            IsRun(Initial(), actions) && Run(Initial(), actions).live == {0, 1}
                && Run(Initial(), actions).starts == [0, 1]
  {
    var begun := LEFT_BEHIND.(
      shared := Initial().shared.(starting := Some(1), launch := Some(None)), tasks := map[1 := Materializing(1)],
      next := 2);
    var launched := begun.(tasks := map[1 := AdapterStarting(1)], live := {0, 1}, starts := [0, 1]);
    Follows(begun, Continue(1, Succeeded), launched, []);
    Follows(LEFT_BEHIND, DispatchStart(1, None, true, true), begun, [Continue(1, Succeeded)]);
    RejectedStartLeavesAWriter();
    RunsCompose(Initial(), REJECTED_START, [DispatchStart(1, None, true, true), Continue(1, Succeeded)]);
  }

  /** And a stop is accepted although that writer runs on. */
  lemma AcceptedStopBesideAWriter()
    ensures var actions := REJECTED_START + [DispatchStop(1), Continue(1, Succeeded)];
            IsRun(Initial(), actions) && StopAccepted(Run(Initial(), actions), 1) && Run(Initial(), actions).live == {0}
  {
    RejectedStartLeavesAWriter();
    RunKeepsInv(Initial(), REJECTED_START);
    StopAfterTheMapsForgot(LEFT_BEHIND, 1);
    RunsCompose(Initial(), REJECTED_START, [DispatchStop(1), Continue(1, Succeeded)]);
  }

  // ---------------------------------------------------------------- run.resume

  /**
   A resume never starts anything; it reports absence only when no unabandoned writer runs, and life only
   when there is an execution.
   */
  lemma ResumeReportsTruthfully(s: State, a: Action)
    requires Inv(s) && Scheduled(s, a) && a.Continue? && ResumePc(s.shared, s.tasks[a.task])
    requires MoveOf(s, a).reply.Some?
    ensures var t := Apply(s, a);
            && t.starts == s.starts && t.ownedStarts == s.ownedStarts
            && (MoveOf(s, a).reply.value.verdict == Reject(ProcessExited) ==> t.live <= t.abandoned)
            && (MoveOf(s, a).reply.value.verdict == Accept ==>
                  t.shared.handle.Some?
                      || (t.shared.physical.Some? && t.shared.physical.value.execution == Some(Execution(true))))
  {
    var t := Apply(s, a);
    forall w | w in t.live && MoveOf(s, a).reply.value.verdict == Reject(ProcessExited) ensures w in t.abandoned {
      assert w in s.live;
      assert Justified(s, w) || w in s.abandoned;
    }
  }

  // ---------------------------------------------------------------- the scheduling assumption is needed

  /** A run under the weaker rule that anything `Possible` may come next. */
  ghost predicate IsLooseTrace(states: seq<State>, actions: seq<Action>) {
    && |states| == |actions| + 1 && states[0] == Initial()
    && forall i | 0 <= i < |actions| :: Possible(states[i], actions[i]) && states[i + 1] == Apply(states[i], actions[i])
  }

  /** A start whose checks fail, a stop that waits for it, and a repeated start dispatched before the stop continues. */
  function RaceAction(i: nat): Action {
    match i
    case 0 => DispatchStart(0, None, true, false)
    case 1 => DispatchStop(1)
    case 2 => Continue(0, Succeeded)
    case 3 => DispatchStart(2, None, true, true)
    case 4 => Continue(1, Succeeded)
    case _ => Continue(2, Succeeded)
  }

  function RaceState(i: nat): State {
    var no, yes := Reply(StartHandler, 0, Reject(ProcessStartFailed)), Reply(StopHandler, 1, Accept);
    var first := Shared(Some(0), None, false, Some(None), None);
    var waiting := StopAwaitingStart(1, Some(0));
    match i
    case 0 => Initial()
    case 1 => State(first, map[0 := RejectingStart], 1, {}, {}, [], [], {no})
    case 2 => State(first, map[0 := RejectingStart, 1 := waiting], 2, {}, {}, [], [], {no})
    case 3 => State(Initial().shared, map[1 := waiting], 2, {}, {}, [], [], {no})
    case 4 => State(first.(starting := Some(2)), map[1 := waiting, 2 := Materializing(2)], 3, {}, {}, [], [], {no})
    case 5 => State(first.(starting := Some(2), finished := true), map[2 := Materializing(2)], 3, {}, {}, [], [],
        {no, yes})
    case _ => State(first.(starting := Some(2), finished := true), map[2 := AdapterStarting(2)], 3, {2}, {}, [2], [],
        {no, yes})
  }

  ghost predicate RaceGoesOn(i: nat) {
    Possible(RaceState(i), RaceAction(i)) && RaceState(i + 1) == Apply(RaceState(i), RaceAction(i))
  }

  lemma RaceFails() ensures RaceGoesOn(0) && RaceGoesOn(1) {}
  lemma RaceRestarts() ensures RaceGoesOn(2) && RaceGoesOn(3) {}
  lemma RaceStops() ensures RaceGoesOn(4) {}
  lemma RaceLaunches() ensures RaceGoesOn(5) {}

  /**
   Were a message dispatched while a continuation is still queued, a stop could be accepted
   between the failure of one start and the launch of the next: the writer is live and held.
   */
  lemma StopNeedsMicrotasksFirst() returns (states: seq<State>, actions: seq<Action>)
    ensures IsLooseTrace(states, actions)
    ensures StopAccepted(states[|actions|], 1) && Held(states[|actions|], 2)
  {
    states, actions := seq(7, (i: nat) => RaceState(i)), seq(6, (i: nat) => RaceAction(i));
    RaceFails();
    RaceRestarts();
    RaceStops();
    RaceLaunches();
    forall i | 0 <= i < 6 ensures Possible(states[i], actions[i]) && states[i + 1] == Apply(states[i], actions[i]) {
      assert RaceGoesOn(i);
    }
    assert states[6] == RaceState(6) && Reply(StopHandler, 1, Accept) in RaceState(6).replies;
  }
}
