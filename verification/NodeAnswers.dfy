/**
 What the node answers (apps/artood/src/node-client.ts:481-1003): for each handler of a run exactly when it
 accepts, with which code it rejects and what it does instead of answering, in terms of what it found; and over
 every run, that each command gets exactly one answer and a repeated start the answer of the original.
 */
module NodeAnswers {
  import opened Common
  import opened NodeRun

  // ---------------------------------------------------------------- run.stop

  predicate Stops(pc: Pc) {
    pc.StopAwaitingStart? || pc.StoppingAdapter? || pc.StopAwaitingReady? || pc.StoppingOwned?
  }

  /**
   A legacy stop that finds a handle calls its adapter; an owned one that is neither closed nor without
   execution asks it.
   */
  predicate StopCallsOut(sh: Shared, pc: Pc) {
    || (pc.StopAwaitingStart? && sh.handle.Some?)
    || (pc.StopAwaitingReady? && sh.physical.Some? && !sh.physical.value.confirmedClosed
        && sh.physical.value.execution.Some?)
  }

  /** Nothing to stop, a stop that succeeded, or a record already closed. */
  predicate StopIsDone(sh: Shared, pc: Pc, input: Input) {
    || (pc.StopAwaitingStart? && sh.handle == None)
    || ((pc.StoppingAdapter? || pc.StoppingOwned?) && input == Succeeded)
    || (pc.StopAwaitingReady? && sh.physical.Some? && sh.physical.value.confirmedClosed)
  }

  function StopVerdict(sh: Shared, pc: Pc, input: Input): Verdict {
    if StopIsDone(sh, pc, input) then Accept
    else Reject(if pc.StoppingAdapter? then ProcessExited else ProcessStartFailed)
  }

  /**
   A stop that continues calls out, or ends with one answer: accepted exactly if nothing was there to stop, the stop
   it awaited succeeded or the record was already closed; otherwise rejected with the code of its path.
   */
  lemma StopAnswersExactly(s: State, t: TaskId, input: Input)
    requires Inv(s) && Scheduled(s, Continue(t, input)) && Stops(s.tasks[t])
    ensures var u, pc := Apply(s, Continue(t, input)), s.tasks[t];
            && (t in u.tasks <==> StopCallsOut(s.shared, pc))
            && (t in u.tasks ==>
                  && u.replies == s.replies
                  && u.tasks[t] == if pc.StopAwaitingStart? then StoppingAdapter(pc.command, s.shared.handle.value)
                                   else StoppingOwned(pc.command))
            && (t !in u.tasks ==>
                  u.replies == s.replies + {Reply(StopHandler, pc.command, StopVerdict(s.shared, pc, input))})
  {}

  // ---------------------------------------------------------------- run.start

  /** A launch of this run is under way or has been. */
  predicate Busy(sh: Shared) {
    sh.starting.Some? || sh.handle.Some? || sh.finished
  }

  /** Legacy entries carry no launch key. */
  ghost predicate LaunchAgrees(s: State) {
    && (s.shared.starting.Some? ==> s.shared.launch == Some(None))
    && (forall t | t in s.tasks :: !s.tasks[t].AwaitingStart?)
  }

  lemma StepKeepsLaunch(s: State, a: Action)
    requires Inv(s) && LaunchAgrees(s) && Scheduled(s, a)
    ensures LaunchAgrees(Apply(s, a))
  {}

  /** No start ever waits for a legacy one: a per-run start that meets one is refused for its other key. */
  lemma {:induction false} NoStartAwaitsALegacyOne(s: State, actions: seq<Action>)
    requires Inv(s) && LaunchAgrees(s) && IsRun(s, actions)
    ensures LaunchAgrees(Run(s, actions))
    decreases actions
  {
    if actions != [] {
      StepKeepsLaunch(s, actions[0]);
      StepKeepsInv(s, actions[0]);
      NoStartAwaitsALegacyOne(Apply(s, actions[0]), actions[1..]);
    }
  }

  /** What a start does when it is dispatched: wait for the original, begin, or answer at once. */
  datatype Dispatched = WaitsForOriginal | BeginsOwned | BeginsLegacy | Answers(verdict: Verdict)

  function StartVerdict(sh: Shared, key: Option<LaunchKey>, valid: bool, plannable: bool): Dispatched {
    if valid && sh.physical.Some? && key == Some(sh.physical.value.key) then WaitsForOriginal
    else if valid && sh.physical == None && Busy(sh)
        && (sh.launch == None || sh.launch == Some(key)) then Answers(Accept)
    else if valid && sh.physical == None && !Busy(sh) && key.Some? then BeginsOwned
    else if valid && sh.physical == None && !Busy(sh) && plannable then BeginsLegacy
    else Answers(Reject(ProcessStartFailed))
  }

  /**
   A start is accepted at once exactly if it repeats a legacy launch under the same binding; it waits exactly for a
   per-run start with its own key; it begins exactly if the run has none; and is refused in all other cases.
   */
  lemma StartDispatchesExactly(s: State, c: CommandId, key: Option<LaunchKey>, valid: bool, plannable: bool)
    requires Inv(s) && LaunchAgrees(s) && Scheduled(s, DispatchStart(c, key, valid, plannable))
    ensures var u, me := Apply(s, DispatchStart(c, key, valid, plannable)), s.next;
            && me !in s.tasks && u.live == s.live && u.starts == s.starts && u.ownedStarts == s.ownedStarts
            && match StartVerdict(s.shared, key, valid, plannable)
               case WaitsForOriginal =>
                 u.replies == s.replies && me in u.tasks && u.tasks[me] == AwaitingReady(c) && u.shared == s.shared
               case BeginsOwned =>
                 && u.replies == s.replies && me in u.tasks && u.tasks[me] == Preparing(c)
                 && u.shared.physical == Some(Physical(me, key.value, None, None, false))
                       && u.shared.launch == Some(key)
               case BeginsLegacy =>
                 u.replies == s.replies && me in u.tasks && u.tasks[me] == Materializing(c)
                 && u.shared.starting == Some(me) && u.shared.launch == Some(None)
               case Answers(verdict) => u.replies == s.replies + {Reply(StartHandler, c, verdict)}
  {}

  /** A start under way: it calls its adapter, or has its answer from how that call or the preparation came back. */
  predicate Starts(pc: Pc) {
    pc.Materializing? || pc.AdapterStarting? || pc.Preparing? || pc.OwnedStarting?
  }

  lemma StartAnswersExactly(s: State, t: TaskId, input: Input)
    requires Inv(s) && Scheduled(s, Continue(t, input)) && Starts(s.tasks[t])
    ensures var u, pc := Apply(s, Continue(t, input)), s.tasks[t];
            var prepared := (pc.Materializing? && input == Succeeded) || (pc.Preparing? && !input.PreparationFailed?);
            var started := (pc.AdapterStarting? && input == Succeeded) || (pc.OwnedStarting? && !input.StartupFailed?);
            && (prepared ==>
                  && u.replies == s.replies && t in u.live && t in u.tasks
                  && u.starts == (if pc.Materializing? then s.starts + [t] else s.starts)
                  && u.ownedStarts == (if pc.Preparing? then s.ownedStarts + [t] else s.ownedStarts)
                  && u.tasks[t] == if pc.Materializing? then AdapterStarting(pc.command) else OwnedStarting(pc.command))
            && (started ==>
                  && u.replies == s.replies + {Reply(StartHandler, pc.command, Accept)} && t in u.tasks
                  && (if pc.AdapterStarting? then u.tasks[t] == Streaming && u.shared.handle == Some(t)
                      else u.tasks[t] == OwnedStreaming && u.shared.physical.value.outcome == Some(Started)))
            && (!prepared && !started ==>
                  u.replies == s.replies + {Reply(StartHandler, pc.command, Reject(ProcessStartFailed))})
  {}

  /** A legacy stream that fails awaits a stop of its writer, and every end of it goes through the `finally`. */
  lemma LegacyStreamGoesOn(s: State, t: TaskId, input: Input)
    requires Inv(s) && Scheduled(s, Continue(t, input)) && Streams(s.tasks[t])
    ensures var u, pc := Apply(s, Continue(t, input)), s.tasks[t];
            && u.replies == s.replies && t in u.tasks
            && (pc.Streaming? && input != Succeeded ==> u.tasks[t] == StoppingAfterFailure && u.shared == s.shared)
            && (pc.StoppingAfterFailure? && input == Succeeded ==>
                  u.tasks[t] == ReportingFailure && u.shared == s.shared)
            && (pc.ReportingFailure? || (pc.Streaming? && input == Succeeded)
                || (pc.StoppingAfterFailure? && input != Succeeded) ==>
                  u.tasks[t] == ReportingEnd && u.shared.finished && u.shared.handle == None)
  {}

  // ---------------------------------------------------------------- run.resume

  predicate Resumes(pc: Pc) {
    pc.ResumeAwaitingStart? || pc.ResumeAwaitingReady? || pc.Inspecting?
  }

  function ResumeVerdict(sh: Shared, pc: Pc, input: Input): Verdict {
    var p := sh.physical;
    if pc.ResumeAwaitingStart? then (if sh.handle.Some? then Accept else Reject(ProcessExited))
    else if pc.ResumeAwaitingReady? then
      Reject(if p.Some? && p.value.confirmedClosed then ProcessExited else ProcessStartFailed)
    else
      var delivering := p.Some? && p.value.execution == Some(Execution(true));
      if delivering && (input == Inspected(StatusRunning) || input == Inspected(StatusClosed)) then Accept
      else Reject(if input == Inspected(StatusClosed) then ProcessExited else ProcessStartFailed)
  }

  /**
   A resume inspects exactly a retained execution; otherwise it is accepted exactly for a run with a handle or an
   execution that still delivers and was found running or closed, and says exited only of what is known to have exited.
   */
  lemma ResumeAnswersExactly(s: State, t: TaskId, input: Input)
    requires Inv(s) && Scheduled(s, Continue(t, input)) && Resumes(s.tasks[t])
    ensures var u, pc := Apply(s, Continue(t, input)), s.tasks[t];
            && (t in u.tasks <==> pc.ResumeAwaitingReady? && s.shared.physical.value.execution.Some?)
            && (t in u.tasks ==> u.tasks[t] == Inspecting(pc.command) && u.replies == s.replies)
            && (t !in u.tasks ==>
                  u.replies == s.replies + {Reply(ResumeHandler, pc.command, ResumeVerdict(s.shared, pc, input))})
  {}

  // ---------------------------------------------------------------- what the entries say

  /** The answers that close a per-run record. */
  predicate Closes(pc: Pc, input: Input) {
    || ((pc.StoppingOwned? || pc.OwnedStreaming?) && input == Succeeded)
    || (pc.Inspecting? && input == Inspected(StatusClosed))
    || (pc.OwnedStarting? && input.StartupFailed? && input.receipt != UnconfirmedStartup)
    || (pc.Preparing? && input.PreparationFailed? && input.closed)
  }

  predicate RecordClosed(s: State) {
    s.shared.physical.Some? && s.shared.physical.value.confirmedClosed
  }

  /** A record is closed by exactly these answers, and for good. */
  lemma RecordClosesExactly(s: State, a: Action)
    requires Inv(s) && Scheduled(s, a)
    ensures RecordClosed(Apply(s, a)) <==>
              RecordClosed(s) || (a.Continue? && Closes(s.tasks[a.task], a.input))
  {}

  /** A run is finished by exactly the end of its stream, or a stop that found nothing to stop. */
  lemma FinishesExactly(s: State, a: Action)
    requires Inv(s) && Scheduled(s, a)
    ensures Apply(s, a).shared.finished <==>
              || s.shared.finished
              || (a.Continue? && Streams(s.tasks[a.task]) && Apply(s, a).shared.handle == None)
              || (a.Continue? && s.tasks[a.task].StopAwaitingStart? && s.shared.handle == None)
  {}

  /** An execution is kept exactly from a successful start until it is both closed and delivered. */
  ghost predicate ExecutionAgrees(s: State) {
    s.shared.physical.Some? ==>
      var p := s.shared.physical.value;
      && (p.execution.Some? <==> p.outcome == Some(Started) && (!p.confirmedClosed || p.owner in s.tasks))
      && (p.execution.Some? ==> (p.execution.value.deliveryPending <==> p.owner in s.tasks))
      && (p.outcome == Some(Started) && p.owner in s.tasks ==> s.tasks[p.owner].OwnedStreaming?)
      && (p.outcome.Some? && p.outcome != Some(Started) ==> p.owner !in s.tasks)
  }

  lemma OwnerKeepsExecution(s: State, a: Action)
    requires Inv(s) && ExecutionAgrees(s) && Scheduled(s, a) && a.Continue? && PhysicalPc(s.tasks[a.task])
    ensures ExecutionAgrees(Apply(s, a))
  {}

  lemma OthersKeepExecution(s: State, a: Action)
    requires Inv(s) && ExecutionAgrees(s) && Scheduled(s, a) && !(a.Continue? && PhysicalPc(s.tasks[a.task]))
    ensures ExecutionAgrees(Apply(s, a))
  {}

  lemma StepKeepsExecution(s: State, a: Action)
    requires Inv(s) && ExecutionAgrees(s) && Scheduled(s, a)
    ensures ExecutionAgrees(Apply(s, a))
  {
    if a.Continue? && PhysicalPc(s.tasks[a.task]) { OwnerKeepsExecution(s, a); } else { OthersKeepExecution(s, a); }
  }

  lemma {:induction false} ExecutionIsKeptWhileNeeded(s: State, actions: seq<Action>)
    requires Inv(s) && ExecutionAgrees(s) && IsRun(s, actions)
    ensures ExecutionAgrees(Run(s, actions))
    decreases actions
  {
    if actions != [] {
      StepKeepsExecution(s, actions[0]);
      StepKeepsInv(s, actions[0]);
      ExecutionIsKeptWhileNeeded(Apply(s, actions[0]), actions[1..]);
    }
  }

  // ---------------------------------------------------------------- every command is answered once

  /** The handlers dispatched, with their commands, and the answers given, in order. */
  datatype Book = Book(asked: map<TaskId, (Handler, CommandId)>, given: seq<(TaskId, Reply)>)

  function Asked(a: Action): Option<(Handler, CommandId)> {
    match a
    case DispatchStart(c, _, _, _) => Some((StartHandler, c))
    case DispatchStop(c) => Some((StopHandler, c))
    case DispatchResume(c) => Some((ResumeHandler, c))
    case _ => None
  }

  function Note(s: State, a: Action, b: Book): Book
    requires Possible(s, a)
  {
    var asked := if Asked(a).Some? then b.asked[s.next := Asked(a).value] else b.asked;
    var reply := if a.WriterExits? then None else MoveOf(s, a).reply;
    var me := if a.Continue? then a.task else s.next;
    Book(asked, if reply.Some? then b.given + [(me, reply.value)] else b.given)
  }

  function NoteAll(s: State, actions: seq<Action>, b: Book): Book
    requires IsRun(s, actions)
    decreases actions
  {
    if actions == [] then b else NoteAll(Apply(s, actions[0]), actions[1..], Note(s, actions[0], b))
  }

  /** The command a handler still owes an answer to. */
  function Owes(pc: Pc): Option<(Handler, CommandId)> {
    if Stops(pc) then Some((StopHandler, pc.command))
    else if Resumes(pc) then Some((ResumeHandler, pc.command))
    else if Starts(pc) || pc.AwaitingReady? || pc.AwaitingStart? then Some((StartHandler, pc.command))
    else None
  }

  predicate HasAnswer(b: Book, t: TaskId) {
    exists k :: 0 <= k < |b.given| && b.given[k].0 == t
  }

  predicate StillOwes(s: State, t: TaskId) {
    t in s.tasks && Owes(s.tasks[t]).Some?
  }

  /** The answer to a handler is to its own command, and it has one exactly if it owes none. */
  ghost predicate BookAgrees(s: State, b: Book) {
    && (forall t: TaskId :: t in b.asked <==> t < s.next)
    && (forall t: TaskId | t < s.next :: HasAnswer(b, t) <==> !StillOwes(s, t))
    && (forall t: TaskId | StillOwes(s, t) :: t in b.asked && Owes(s.tasks[t]) == Some(b.asked[t]))
    && (forall k | 0 <= k < |b.given| ::
          b.given[k].0 in b.asked && (b.given[k].1.handler, b.given[k].1.command) == b.asked[b.given[k].0])
    && (forall j, k | 0 <= j < k < |b.given| :: b.given[j].0 != b.given[k].0)
  }

  /** A move answers what its handler owed, and owes nothing afterwards; or it goes on owing it. */
  predicate Discharges(owed: Option<(Handler, CommandId)>, m: Move) {
    match m.reply
    case Some(reply) => owed == Some((reply.handler, reply.command)) && (m.next.Some? ==> Owes(m.next.value) == None)
    case None => if m.next.Some? then Owes(m.next.value) == owed else owed == None
  }

  lemma DispatchDischarges(s: State, a: Action)
    requires a.DispatchStart? || a.DispatchStop? || a.DispatchResume?
    ensures Discharges(Asked(a), MoveOf(s, a))
  {}

  lemma LegacyDischarges(s: State, a: Action)
    requires Possible(s, a) && a.Continue? && LegacyPc(s.tasks[a.task])
    ensures Discharges(Owes(s.tasks[a.task]), MoveOf(s, a))
  {}

  lemma OthersDischarge(s: State, a: Action)
    requires Inv(s) && Scheduled(s, a) && a.Continue? && !LegacyPc(s.tasks[a.task])
    ensures Discharges(Owes(s.tasks[a.task]), MoveOf(s, a))
  {}

  function Owed(s: State, a: Action): Option<(Handler, CommandId)>
    requires Possible(s, a)
  {
    if a.Continue? then Owes(s.tasks[a.task]) else Asked(a)
  }

  lemma MoveDischarges(s: State, a: Action)
    requires Inv(s) && Scheduled(s, a) && !a.WriterExits?
    ensures Discharges(Owed(s, a), MoveOf(s, a))
  {
    if !a.Continue? { DispatchDischarges(s, a); }
    else if LegacyPc(s.tasks[a.task]) { LegacyDischarges(s, a); }
    else { OthersDischarge(s, a); }
  }

  lemma AnswerAppended(b: Book, n: Book, me: TaskId, reply: Option<Reply>, u: TaskId)
    requires n.given == if reply.Some? then b.given + [(me, reply.value)] else b.given
    ensures HasAnswer(n, u) <==> HasAnswer(b, u) || (reply.Some? && u == me)
  {
    if HasAnswer(b, u) {
      var k :| 0 <= k < |b.given| && b.given[k].0 == u;
      assert n.given[k].0 == u;
    }
    if reply.Some? { assert n.given[|b.given|].0 == me; }
  }

  /** Who is left in its handler after a move, and owing what. */
  lemma MoveLeavesOthers(s: State, a: Action, u: TaskId)
    requires Inv(s) && Scheduled(s, a) && !a.WriterExits?
    ensures var t, me := Apply(s, a), if a.Continue? then a.task else s.next;
            && t.next == (if a.Continue? then s.next else s.next + 1) && (a.Continue? ==> me < s.next)
            && (u != me ==> (u in t.tasks <==> u in s.tasks) && (u in t.tasks ==> t.tasks[u] == s.tasks[u]))
            && (me in t.tasks <==> MoveOf(s, a).next.Some?)
            && (me in t.tasks ==> MoveOf(s, a).next == Some(t.tasks[me]))
            && (u in s.tasks ==> u < s.next)
  {}

  lemma NoteTellsOf(s: State, a: Action, b: Book, u: TaskId)
    requires Inv(s) && Scheduled(s, a) && BookAgrees(s, b) && !a.WriterExits? && u < Apply(s, a).next
    ensures var t, n := Apply(s, a), Note(s, a, b);
            && (HasAnswer(n, u) <==> !StillOwes(t, u))
            && (StillOwes(t, u) ==> u in n.asked && Owes(t.tasks[u]) == Some(n.asked[u]))
  {
    MoveDischarges(s, a);
    MoveLeavesOthers(s, a, u);
    MoveLeavesOthers(s, a, if a.Continue? then a.task else s.next);
    AnswerAppended(b, Note(s, a, b), if a.Continue? then a.task else s.next, MoveOf(s, a).reply, u);
    if u == s.next { NotYetAsked(s, b, u); }
  }

  lemma NoteKeepsBook(s: State, a: Action, b: Book)
    requires Inv(s) && Scheduled(s, a) && BookAgrees(s, b)
    ensures BookAgrees(Apply(s, a), Note(s, a, b))
  {
    if !a.WriterExits? {
      MoveDischarges(s, a);
      var t, n, me := Apply(s, a), Note(s, a, b), if a.Continue? then a.task else s.next;
      var reply := MoveOf(s, a).reply;
      MoveLeavesOthers(s, a, me);
      forall u: TaskId | u < t.next
        ensures (HasAnswer(n, u) <==> !StillOwes(t, u))
                && (StillOwes(t, u) ==> u in n.asked && Owes(t.tasks[u]) == Some(n.asked[u]))
      {
        NoteTellsOf(s, a, b, u);
      }
      forall k | 0 <= k < |b.given| ensures b.given[k].0 != s.next && (reply.Some? ==> b.given[k].0 != me) {
        assert HasAnswer(b, b.given[k].0);
      }
    }
  }

  lemma NotYetAsked(s: State, b: Book, u: TaskId)
    requires BookAgrees(s, b) && u >= s.next
    ensures !HasAnswer(b, u)
  {
    forall k | 0 <= k < |b.given| ensures b.given[k].0 < s.next { assert b.given[k].0 in b.asked; }
  }

  lemma {:induction false} NoteAllKeepsBook(s: State, actions: seq<Action>, b: Book)
    requires Inv(s) && IsRun(s, actions) && BookAgrees(s, b)
    ensures BookAgrees(Run(s, actions), NoteAll(s, actions, b))
    decreases actions
  {
    if actions != [] {
      NoteKeepsBook(s, actions[0], b);
      StepKeepsInv(s, actions[0]);
      NoteAllKeepsBook(Apply(s, actions[0]), actions[1..], Note(s, actions[0], b));
    }
  }

  /**
   Main result: over every run each start, stop and resume command delivered to the node gets exactly one answer, of
   its own kind and under its own id, and is without one exactly as long as its handler is still at work on it.
   */
  lemma EveryCommandIsAnsweredOnce(actions: seq<Action>)
    requires IsRun(Initial(), actions)
    ensures BookAgrees(Run(Initial(), actions), NoteAll(Initial(), actions, Book(map[], [])))
  {
    NoteAllKeepsBook(Initial(), actions, Book(map[], []));
  }

  // ---------------------------------------------------------------- a repeated start

  predicate WasGiven(b: Book, t: TaskId, verdict: Verdict) {
    exists k :: 0 <= k < |b.given| && b.given[k].0 == t && b.given[k].1.verdict == verdict
  }

  /** The recorded outcome of a per-run start is the answer its owner was given. */
  ghost predicate OutcomeIsAnswer(s: State, b: Book) {
    s.shared.physical.Some? && s.shared.physical.value.outcome.Some? ==>
      var p := s.shared.physical.value;
      WasGiven(b, p.owner, if p.outcome == Some(Started) then Accept else Reject(ProcessStartFailed))
  }

  /** An outcome is recorded by the owner's own answer, and never changes. */
  lemma OutcomeComesWithAnswer(s: State, a: Action)
    requires Inv(s) && Scheduled(s, a)
    ensures var p, q := s.shared.physical, Apply(s, a).shared.physical;
            && (p.Some? && p.value.outcome.Some? ==>
                  q.Some? && q.value.owner == p.value.owner && q.value.outcome == p.value.outcome)
            && (q.Some? && q.value.outcome.Some? && (p == None || p.value.outcome == None) ==>
                  && a.Continue? && a.task == q.value.owner && MoveOf(s, a).reply.Some?
                  && MoveOf(s, a).reply.value.verdict ==
                       if q.value.outcome == Some(Started) then Accept else Reject(ProcessStartFailed))
  {}

  lemma GivenStays(b: Book, n: Book, t: TaskId, verdict: Verdict)
    requires b.given <= n.given && WasGiven(b, t, verdict)
    ensures WasGiven(n, t, verdict)
  {
    var k :| 0 <= k < |b.given| && b.given[k].0 == t && b.given[k].1.verdict == verdict;
    assert n.given[k] == b.given[k];
  }

  lemma NoteKeepsOutcome(s: State, a: Action, b: Book)
    requires Inv(s) && Scheduled(s, a) && OutcomeIsAnswer(s, b)
    ensures OutcomeIsAnswer(Apply(s, a), Note(s, a, b))
  {
    var n, p := Note(s, a, b), s.shared.physical;
    OutcomeComesWithAnswer(s, a);
    if p.Some? && p.value.outcome.Some? {
      GivenStays(b, n, p.value.owner, if p.value.outcome == Some(Started) then Accept else Reject(ProcessStartFailed));
    } else if a.Continue? && MoveOf(s, a).reply.Some? {
      assert n.given[|b.given|] == (a.task, MoveOf(s, a).reply.value);
    }
  }

  lemma {:induction false} NoteAllKeepsOutcome(s: State, actions: seq<Action>, b: Book)
    requires Inv(s) && IsRun(s, actions) && OutcomeIsAnswer(s, b)
    ensures OutcomeIsAnswer(Run(s, actions), NoteAll(s, actions, b))
    decreases actions
  {
    if actions != [] {
      NoteKeepsOutcome(s, actions[0], b);
      StepKeepsInv(s, actions[0]);
      NoteAllKeepsOutcome(Apply(s, actions[0]), actions[1..], Note(s, actions[0], b));
    }
  }

  /** A repeated per-run start that waited for the original is given the original's own verdict. */
  lemma RepeatedStartGetsTheOriginalAnswer(actions: seq<Action>, t: TaskId, input: Input)
    requires IsRun(Initial(), actions)
    requires var s := Run(Initial(), actions); Scheduled(s, Continue(t, input)) && s.tasks[t].AwaitingReady?
    ensures var s := Run(Initial(), actions);
            var u, p, c := Apply(s, Continue(t, input)), s.shared.physical, s.tasks[t].command;
            && p.Some? && t !in u.tasks && u.starts == s.starts && u.ownedStarts == s.ownedStarts
            && exists verdict ::
                 && u.replies == s.replies + {Reply(StartHandler, c, verdict)}
                 && WasGiven(NoteAll(Initial(), actions, Book(map[], [])), p.value.owner, verdict)
  {
    RunKeepsInv(Initial(), actions);
    NoteAllKeepsOutcome(Initial(), actions, Book(map[], []));
    var s := Run(Initial(), actions);
    var p := s.shared.physical;
    var verdict := if p.value.outcome == Some(Started) then Accept else Reject(ProcessStartFailed);
    assert WasGiven(NoteAll(Initial(), actions, Book(map[], [])), p.value.owner, verdict);
  }
}
