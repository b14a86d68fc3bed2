/**
 What the consumer of an owned run gets: the lifecycle events of the process adapter, pushed one by one into its
 `AsyncEventQueue` (apps/artood/src/process-adapter.ts:251-296, 633-705), whatever requests are made meanwhile.
 */
module EventStream {
  import opened Common
  import Process = ProcessLifecycle
  import Queue = EventQueue

  datatype State = State(process: Process.State, queue: Queue.State<Process.Event>)

  function Initial(posix: bool): State {
    State(Process.Initial(posix), Queue.Empty())
  }

  /** A step of the process, or a turn of the consumer's `drain`. */
  datatype Action = AtProcess(step: Process.Action) | Request

  predicate Possible(s: State, a: Action) {
    a.AtProcess? ==> Process.Possible(s.process, a.step)
  }

  function PushAll(q: Queue.State<Process.Event>, events: seq<Process.Event>): Queue.State<Process.Event>
    decreases |events|
  {
    if events == [] then q else PushAll(Queue.OnPush(q, events[0]), events[1..])
  }

  /** What a step emits, and whether it ends the queue. */
  function Emitted(before: Process.Outcome, after: Process.Outcome): seq<Process.Event> {
    if |before.emitted| <= |after.emitted| then after.emitted[|before.emitted|..] else []
  }

  function Feed(q: Queue.State<Process.Event>, before: Process.Outcome, after: Process.Outcome)
    : Queue.State<Process.Event>
  {
    var pushed := PushAll(q, Emitted(before, after));
    if after.ended && !before.ended then Queue.OnEnd(pushed) else pushed
  }

  function Apply(s: State, a: Action): State
    requires Possible(s, a)
  {
    match a
    case AtProcess(step) =>
      var p := Process.Apply(s.process, step);
      State(p, Feed(s.queue, s.process.out, p.out))
    case Request => s.(queue := Queue.OnPull(s.queue))
  }

  predicate IsRun(s: State, actions: seq<Action>)
    decreases actions
  {
    actions == [] || (Possible(s, actions[0]) && IsRun(Apply(s, actions[0]), actions[1..]))
  }

  function Run(s: State, actions: seq<Action>): State
    requires IsRun(s, actions)
    decreases actions
  {
    if actions == [] then s else Run(Apply(s, actions[0]), actions[1..])
  }

  // ---------------------------------------------------------------- the invariant

  /** The queue has taken exactly what was emitted, and has ended exactly when the run has. */
  ghost predicate Inv(s: State) {
    && Process.Inv(s.process) && Queue.Inv(s.queue)
    && s.queue.pushed == s.process.out.emitted && s.queue.ended == s.process.out.ended
  }

  /** A step only adds to what was emitted, and after the end it adds nothing. */
  ghost predicate Extends(before: Process.Outcome, after: Process.Outcome) {
    && before.emitted <= after.emitted
    && (before.ended ==> after.ended && after.emitted == before.emitted)
  }

  lemma ConcludeExtends(o: Process.Outcome, code: int, providerFailed: bool, collected: bool)
    requires o.finalized == o.ended
    ensures Extends(o, Process.Conclude(o, code, providerFailed, collected))
  {}

  lemma CloseExtends(s: Process.State, a: Process.Action)
    requires Process.Inv(s) && Process.Possible(s, a) && (a.ChildCloseEvent? || a.CloseContinues?)
    ensures Extends(s.out, Process.Apply(s, a).out)
  {
    ConcludeExtends(s.out, Process.CloseCode(s), a.providerFailed, a.collected);
  }

  lemma OthersExtend(s: Process.State, a: Process.Action)
    requires Process.Possible(s, a) && !a.ChildCloseEvent? && !a.CloseContinues?
    ensures Extends(s.out, Process.Apply(s, a).out) && Process.Apply(s, a).out.ended == s.out.ended
  {}

  lemma {:induction false} PushAllKeepsInv(q: Queue.State<Process.Event>, events: seq<Process.Event>)
    requires Queue.Inv(q) && (q.ended ==> events == [])
    ensures var t := PushAll(q, events);
            Queue.Inv(t) && t.pushed == q.pushed + events && t.ended == q.ended
    decreases |events|
  {
    if events == [] {
      EmptyIsNeutral(q.pushed);
    } else {
      Queue.PushKeepsInv(q, events[0]);
      PushAllKeepsInv(Queue.OnPush(q, events[0]), events[1..]);
      Associative(q.pushed, [events[0]], events[1..]);
      assert [events[0]] + events[1..] == events;
    }
  }

  lemma FeedKeepsInv(q: Queue.State<Process.Event>, before: Process.Outcome, after: Process.Outcome)
    requires Queue.Inv(q) && q.pushed == before.emitted && q.ended == before.ended && Extends(before, after)
    ensures var t := Feed(q, before, after);
            Queue.Inv(t) && t.pushed == after.emitted && t.ended == after.ended
  {
    var pushed := PushAll(q, Emitted(before, after));
    PushAllKeepsInv(q, Emitted(before, after));
    if after.ended && !before.ended {
      Queue.EndKeepsInv(pushed);
      EndKeepsPushed(pushed);
    }
  }

  lemma {:induction false} DismissKeepsPushed(q: Queue.State<Process.Event>)
    ensures Queue.Dismiss(q).pushed == q.pushed && Queue.Dismiss(q).ended == q.ended
    decreases |q.waiters|
  {
    if q.waiters != [] {
      DismissKeepsPushed(q.(waiters := q.waiters[1..], answers := q.answers[q.waiters[0] := Queue.Done]));
    }
  }

  lemma EndKeepsPushed(q: Queue.State<Process.Event>)
    ensures Queue.OnEnd(q).pushed == q.pushed && Queue.OnEnd(q).ended
  {
    DismissKeepsPushed(q.(ended := true));
  }

  lemma StepKeepsInv(s: State, a: Action)
    requires Inv(s) && Possible(s, a)
    ensures Inv(Apply(s, a))
  {
    match a
    case Request => Queue.PullKeepsInv(s.queue);
    case AtProcess(step) =>
      Process.StepKeepsInv(s.process, step);
      if step.ChildCloseEvent? || step.CloseContinues? { CloseExtends(s.process, step); }
      else { OthersExtend(s.process, step); }
      FeedKeepsInv(s.queue, s.process.out, Process.Apply(s.process, step).out);
  }

  lemma {:induction false} RunKeepsInv(s: State, actions: seq<Action>)
    requires Inv(s) && IsRun(s, actions)
    ensures Inv(Run(s, actions))
    decreases actions
  {
    if actions != [] {
      StepKeepsInv(s, actions[0]);
      RunKeepsInv(Apply(s, actions[0]), actions[1..]);
    }
  }

  // ---------------------------------------------------------------- main result

  /** What a request has got, and when it has got something. */
  lemma AnswersAreEvents(q: Queue.State<Process.Event>, r: nat)
    requires Queue.Inv(q)
    ensures r in q.answers ==>
              r < q.requests && q.answers[r] == if r < |q.pushed| then Queue.Item(q.pushed[r]) else Queue.Done
    ensures r < q.requests && (r < |q.pushed| || q.ended) ==> r in q.answers
  {}

  /** The request that got a terminal event of the run. */
  predicate GetsTheEnd(q: Queue.State<Process.Event>, request: nat) {
    request in q.answers && q.answers[request].Item? && q.answers[request].value.Terminal?
  }

  /**
   For every interleaving of process and consumer: the terminal event is the last one delivered. The request that
   gets it comes after all others that get an event, every later one is told the end, and once the run has ended
   that request is the one whose number is the number of events before it.
   */
  lemma TerminalIsDeliveredLast(posix: bool, actions: seq<Action>, request: nat)
    requires IsRun(Initial(posix), actions)
    ensures var q := Run(Initial(posix), actions).queue;
            && (GetsTheEnd(q, request) ==>
                  && (forall r: nat | r < request :: r in q.answers && q.answers[r].Item? && !GetsTheEnd(q, r))
                  && (forall r: nat | request < r < q.requests :: r in q.answers && q.answers[r] == Queue.Done))
            && (q.ended && request < q.requests ==> (GetsTheEnd(q, request) <==> request + 1 == |q.pushed|))
  {
    RunKeepsInv(Initial(posix), actions);
    var s := Run(Initial(posix), actions);
    EndIsTheLastEvent(s, request);
    forall r: nat | GetsTheEnd(s.queue, request) && r != request && r < s.queue.requests
      ensures r in s.queue.answers && (r < request ==> s.queue.answers[r].Item? && !GetsTheEnd(s.queue, r))
      ensures r > request ==> s.queue.answers[r] == Queue.Done
    {
      AnswersAreEvents(s.queue, r);
      EndIsTheLastEvent(s, r);
    }
  }

  lemma EndIsTheLastEvent(s: State, request: nat)
    requires Inv(s)
    ensures GetsTheEnd(s.queue, request) ==>
              s.queue.ended && request + 1 == |s.queue.pushed| && request < s.queue.requests
    ensures s.queue.ended && request + 1 == |s.queue.pushed| && request < s.queue.requests ==>
              GetsTheEnd(s.queue, request)
  {
    AnswersAreEvents(s.queue, request);
    if GetsTheEnd(s.queue, request) { Process.EndsWithTerminal(s.process.out, request); }
  }
}
