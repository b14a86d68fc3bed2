/**
 What the offline queue reports and that it gets anywhere (packages/client/src/command-queue.ts:88-135): each outcome is
 the server's own answer to that command, at most one command is on its way, and a network that delivers drains it.
 */
module CommandOutcomes {
  import opened Common
  import opened CommandQueue

  // ---------------------------------------------------------------- outcomes are answers

  /** The answer an outcome repeats. */
  function AnswerOf(o: Outcome): (Command, Reply) {
    match o
    case AppliedOutcome(c, response, _) => (c, Applied(response))
    case ConflictOutcome(c, base, current) => (c, Conflict(base, current))
  }

  /** A refusal names the base version the command was made from and a newer one the resource really had. */
  predicate Tells(v: Server, c: Command, r: Reply) {
    r.Conflict? ==> c.base == Some(r.base) && r.base < r.current <= VersionOf(v, c.resource)
  }

  ghost predicate AnswersTell(s: State) {
    && (forall k | 0 <= k < |s.settled| :: AnswerOf(s.settled[k]) in s.replies)
    && (forall c, r | (c, r) in s.replies :: Tells(s.server, c, r))
  }

  lemma ServerOnlyAges(s: State, a: Action, resource: nat)
    requires Possible(s, a)
    ensures VersionOf(Apply(s, a).server, resource) >= VersionOf(s.server, resource)
  {}

  lemma StepKeepsAnswers(s: State, a: Action)
    requires AnswersTell(s) && Possible(s, a)
    ensures AnswersTell(Apply(s, a))
  {
    var t := Apply(s, a);
    forall c, r | (c, r) in t.replies ensures Tells(t.server, c, r) {
      ServerOnlyAges(s, a, c.resource);
      if (c, r) in s.replies { assert Tells(s.server, c, r); }
    }
    forall k | 0 <= k < |t.settled| ensures AnswerOf(t.settled[k]) in t.replies {
      if k < |s.settled| { assert t.settled[k] == s.settled[k]; }
    }
  }

  lemma {:induction false} RunKeepsAnswers(s: State, actions: seq<Action>)
    requires AnswersTell(s) && IsRun(s, actions)
    ensures AnswersTell(Run(s, actions))
    decreases actions
  {
    if actions != [] {
      StepKeepsAnswers(s, actions[0]);
      RunKeepsAnswers(Apply(s, actions[0]), actions[1..]);
    }
  }

  /**
   Main result: over every run each outcome reports what the server answered to that very command: the response, or for
   a conflict the command's base version and the newer version of its resource.
   */
  lemma OutcomesAreAnswers(versions: map<nat, nat>, actions: seq<Action>, k: nat)
    requires IsRun(Initial(versions), actions) && k < |Run(Initial(versions), actions).settled|
    ensures var s := Run(Initial(versions), actions);
            var o := s.settled[k];
            && AnswerOf(o) in s.replies
            && (o.ConflictOutcome? ==>
                  && o.command.base == Some(o.base)
                  && o.base < o.current <= VersionOf(s.server, o.command.resource))
  {
    RunKeepsAnswers(Initial(versions), actions);
    var s := Run(Initial(versions), actions);
    assert Tells(s.server, AnswerOf(s.settled[k]).0, AnswerOf(s.settled[k]).1);
  }

  /** One answer settles the head with itself, in the last place, and remembers the key exactly if it was applied. */
  lemma SettlesExactly(s: State, reply: Reply)
    requires Possible(s, Returns(Answered(reply)))
    ensures var t, head := Apply(s, Returns(Answered(reply))), s.queue.pending[0];
            && s.queue.pending == [head] + t.queue.pending && t.history == s.history && t.server == s.server
            && |t.settled| == |s.settled| + 1 && t.settled[..|s.settled|] == s.settled
            && AnswerOf(t.settled[|s.settled|]) == (head, reply)
            && t.queue.appliedKeys == (if reply.Applied? then s.queue.appliedKeys + {head.key} else s.queue.appliedKeys)
  {}

  // ---------------------------------------------------------------- what is on its way

  /** The command a step puts on the wire. */
  function Outgoing(s: State, a: Action): Option<Command>
    requires Possible(s, a)
  {
    match a
    case Flush => if s.queue.pass == NoPass && s.queue.pending != [] then Some(s.queue.pending[0]) else None
    case Returns(Answered(_)) => if |s.queue.pending| > 1 then Some(s.queue.pending[1]) else None
    case _ => None
  }

  lemma SendsExactly(s: State, a: Action)
    requires Inv(s) && Possible(s, a)
    ensures var out := Outgoing(s, a);
            Apply(s, a).sent == if out.Some? then s.sent + {out.value} else s.sent
  {}

  /** Sends that have not come back. */
  function InFlight(s: State, actions: seq<Action>): int
    requires IsRun(s, actions)
    decreases actions
  {
    if actions == [] then 0 else
    (if Outgoing(s, actions[0]).Some? then 1 else 0) - (if actions[0].Returns? then 1 else 0)
    + InFlight(Apply(s, actions[0]), actions[1..])
  }

  function Awaited(s: State): int {
    if s.queue.pass == Sending then 1 else 0
  }

  lemma {:induction false} InFlightIsAwaited(s: State, actions: seq<Action>)
    requires Inv(s) && RepliesKnown(s) && IsRun(s, actions)
    ensures InFlight(s, actions) == Awaited(Run(s, actions)) - Awaited(s)
    decreases actions
  {
    if actions != [] {
      StepKeepsInv(s, actions[0]);
      InFlightIsAwaited(Apply(s, actions[0]), actions[1..]);
    }
  }

  /** However flushes are requested, at most one command is on its way, and one is exactly while a pass awaits it. */
  lemma OneSendAtATime(versions: map<nat, nat>, actions: seq<Action>)
    requires IsRun(Initial(versions), actions)
    ensures InFlight(Initial(versions), actions) == Awaited(Run(Initial(versions), actions))
  {
    assert Inv(Initial(versions));
    InFlightIsAwaited(Initial(versions), actions);
  }

  // ---------------------------------------------------------------- the queue drains

  lemma Follows(s: State, a: Action, rest: seq<Action>)
    requires Possible(s, a) && IsRun(Apply(s, a), rest)
    ensures IsRun(s, [a] + rest) && Run(s, [a] + rest) == Run(Apply(s, a), rest)
  {
    assert ([a] + rest)[1..] == rest;
  }

  /** Delivering the head and its answer settles it; what follows goes out at once. */
  lemma {:induction false} PassDrains(s: State) returns (actions: seq<Action>)
    requires Inv(s) && RepliesKnown(s) && s.queue.pass == Sending
    ensures IsRun(s, actions)
    ensures var t := Run(s, actions); t.queue.pending == [] && t.queue.pass == Ending && t.history == s.history
    decreases |s.queue.pending|
  {
    var deliver := Deliver(s.queue.pending[0], 0, 0);
    var t := Apply(s, deliver);
    var reply := Process(s.server, s.queue.pending[0], 0, 0).1;
    var answer := Returns(Answered(reply));
    StepKeepsInv(s, deliver);
    StepKeepsInv(t, answer);
    var u := Apply(t, answer);
    var rest: seq<Action> := [];
    if u.queue.pending != [] { rest := PassDrains(u); }
    Follows(t, answer, rest);
    Follows(s, deliver, [answer] + rest);
    actions := [deliver] + ([answer] + rest);
  }

  /**
   Main result: from any reachable state at rest, one flush over a network that delivers settles every command that was
   pending, in order and each with an answer, and loses none.
   */
  lemma FlushDrains(versions: map<nat, nat>, actions: seq<Action>) returns (more: seq<Action>)
    requires IsRun(Initial(versions), actions) && Run(Initial(versions), actions).queue.pass == NoPass
    ensures var s := Run(Initial(versions), actions);
            && IsRun(s, [Flush] + more)
            && var t := Run(s, [Flush] + more);
            t.queue.pending == [] && t.queue.pass == Ending && Commands(t.settled) == s.history
  {
    assert Inv(Initial(versions));
    RunKeepsInv(Initial(versions), actions);
    var s := Run(Initial(versions), actions);
    StepKeepsInv(s, Flush);
    var t := Apply(s, Flush);
    more := [];
    if s.queue.pending != [] { more := PassDrains(t); }
    Follows(s, Flush, more);
    RunKeepsInv(t, more);
    EmptyIsNeutral(Commands(Run(t, more).settled));
  }
}
