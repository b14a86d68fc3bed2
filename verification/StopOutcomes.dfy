/**
 How the stops of one binding end (apps/server/src/node-binding.ts:78-117, 333-362): which of them resolve and
 which calls return with them, in both directions and over every run, and that an accepted stop is never lost.
 */
module StopOutcomes {
  import opened Common
  import opened StopDispatch

  // ---------------------------------------------------------------- acks

  /** An ack is taken in while its stop waits and the binding is open. */
  predicate TakesAck(s: State, c: CommandId) {
    !s.closed && c in s.pendingStops
  }

  /** The stops whose accepting ack was taken in. */
  function Accepted(s: State, actions: seq<Action>, accepted: set<CommandId>): set<CommandId>
    requires IsRun(s, actions)
    decreases actions
  {
    if actions == [] then accepted
    else Accepted(Apply(s, actions[0]), actions[1..],
                  if actions[0].AckArrives? && actions[0].accepted && TakesAck(s, actions[0].command)
                  then accepted + {actions[0].command} else accepted)
  }

  /** Each settlement on the chain carries the verdict of its ack. */
  ghost predicate VerdictAgrees(s: State, c: CommandId) {
    if c in s.settleAt
    then s.settleAt[c] < |s.chain| && s.chain[s.settleAt[c]] == Settle(c, c in s.confirmed)
    else c !in s.confirmed
  }

  ghost predicate VerdictsAgree(s: State) {
    forall c: CommandId :: VerdictAgrees(s, c)
  }

  lemma AckKeepsVerdict(s: State, d: CommandId, accepted: bool, c: CommandId)
    requires VerdictAgrees(s, c) && CommandAgrees(s, d)
    ensures VerdictAgrees(OnAck(s, d, accepted), c)
  {}

  /** Nothing but an ack adds a settlement to the chain. */
  lemma OthersLeaveVerdicts(s: State, a: Action)
    requires Possible(s, a) && !a.AckArrives?
    ensures var t := Apply(s, a);
            t.confirmed == s.confirmed && t.settleAt == s.settleAt && s.chain <= t.chain
  {
    match a
    case OwnershipKnown(k, owns, d) => OwnershipLeavesChain(s, k, owns, d);
    case SendReturned(k, ok) => SentLeavesChain(s, k, ok);
    case CallReturns(k) => ReturnLeavesChain(s, k);
    case _ =>
  }

  lemma StepKeepsVerdicts(s: State, a: Action)
    requires Inv(s) && VerdictsAgree(s) && Possible(s, a)
    ensures VerdictsAgree(Apply(s, a))
    ensures Apply(s, a).confirmed ==
            if a.AckArrives? && a.accepted && TakesAck(s, a.command) then s.confirmed + {a.command} else s.confirmed
  {
    forall c: CommandId ensures VerdictAgrees(Apply(s, a), c) {
      assert VerdictAgrees(s, c);
      if a.AckArrives? {
        assert CommandAgrees(s, a.command);
        AckKeepsVerdict(s, a.command, a.accepted, c);
      } else {
        OthersLeaveVerdicts(s, a);
      }
    }
    if !a.AckArrives? { OthersLeaveVerdicts(s, a); }
  }

  lemma {:induction false} RunKeepsVerdicts(s: State, actions: seq<Action>)
    requires Inv(s) && VerdictsAgree(s) && IsRun(s, actions)
    ensures var t := Run(s, actions);
            Inv(t) && VerdictsAgree(t) && t.confirmed == Accepted(s, actions, s.confirmed)
    decreases actions
  {
    if actions != [] {
      StepKeepsInv(s, actions[0]);
      StepKeepsVerdicts(s, actions[0]);
      RunKeepsVerdicts(Apply(s, actions[0]), actions[1..]);
    }
  }

  // ---------------------------------------------------------------- settling

  /**
   Main result: when `tail` reaches the ack of a stop that still waits, its promise resolves if and only if the run is
   still owned and that ack accepted the stop; otherwise it is rejected. Nothing else changes.
   */
  lemma TailSettlesExactly(actions: seq<Action>, owns: bool)
    requires IsRun(Initial(), actions) && Possible(Run(Initial(), actions), TailAdvances(owns))
    ensures var s := Run(Initial(), actions);
            var t, w := Apply(s, TailAdvances(owns)), s.chain[s.done];
            && t.done == s.done + 1
            && (forall c | c in s.stops ::
                  c in t.stops && t.stops[c] ==
                    if w.Settle? && w.command == c && s.stops[c].promise == Pending
                    then s.stops[c].(promise := if owns && c in Accepted(Initial(), actions, {}) then Resolved
                        else Rejected)
                    else s.stops[c])
  {
    RunKeepsVerdicts(Initial(), actions);
    var s := Run(Initial(), actions);
    var w := s.chain[s.done];
    assert WorkAgrees(s, s.done);
    if w.Settle? { assert VerdictAgrees(s, w.command); }
    forall c | c in s.stops
      ensures c in Finish(s.stops, w, owns)
      ensures Finish(s.stops, w, owns)[c] ==
                if w.Settle? && w.command == c && s.stops[c].promise == Pending
                then s.stops[c].(promise := if owns && c in Accepted(Initial(), actions, {}) then Resolved
                    else Rejected)
                else s.stops[c]
    {}
  }

  /** An ack taken in queues its stop with its own verdict, and any event taken in is queued as well. */
  lemma AckIsQueued(s: State, c: CommandId, accepted: bool)
    requires Inv(s) && TakesAck(s, c)
    ensures var t := Apply(s, AckArrives(c, accepted));
            && c in s.stops && t.chain == s.chain + [Settle(c, accepted)] && t.stops == s.stops
            && c !in t.pendingStops && c !in t.timers && t.settleAt == s.settleAt[c := |s.chain|] && t.done == s.done
            && (s.stops[c].promise == Pending ==> Queued(t, c))
  {
    assert CommandAgrees(s, c);
  }

  lemma EventIsQueued(s: State)
    ensures var t := Apply(s, EventArrives);
            t.chain == (if s.closed then s.chain else s.chain + [Ingest(|s.eventAt|)]) && t.stops == s.stops
  {}

  // ---------------------------------------------------------------- calls

  predicate Finished(s: State, k: CallId) {
    k in s.results
  }

  predicate Waits(s: State, k: CallId, c: CommandId) {
    k in s.calls && !s.calls[k].Owning? && s.calls[k].command == c
  }

  /** Every call is under way or has returned, not both. */
  ghost predicate CallsAgree(s: State) {
    forall k: CallId :: (k < s.nextCall <==> k in s.calls || k in s.results) && !(k in s.calls && k in s.results)
  }

  /** How a call ends: refused by a closed binding, not the owner, or with the outcome of the stop it waits for. */
  predicate Ends(s: State, a: Action, k: CallId)
    requires Possible(s, a)
  {
    || (a.Dispatch? && k == s.nextCall && s.closed)
    || (a.OwnershipKnown? && a.call == k && !a.owns)
    || (a.CallReturns? && a.call == k)
  }

  /** What step `a` from `s` to `t` does to call `k`: it ends, goes on, or is not there yet. */
  ghost predicate CallMoves(s: State, a: Action, t: State, k: CallId)
    requires Possible(s, a)
  {
    && (k in t.calls <==> (k in s.calls || (a.Dispatch? && k == s.nextCall)) && !Ends(s, a, k))
    && (k in t.results <==> k in s.results || Ends(s, a, k))
    && (k in s.results ==> k in t.results && t.results[k] == s.results[k])
    && (Ends(s, a, k) ==>
          k in t.results && t.results[k] ==
            if a.CallReturns? && s.stops[s.calls[k].command].promise == Resolved then Some(s.calls[k].command)
                else None)
  }

  lemma DispatchMoves(s: State, run: RunId, k: CallId)
    requires s.nextCall !in s.calls && s.nextCall !in s.results
    ensures CallMoves(s, Dispatch(run), OnDispatch(s, run), k)
  {}

  lemma OwnershipMoves(s: State, call: CallId, owns: bool, d: CommandId, k: CallId)
    requires Possible(s, OwnershipKnown(call, owns, d)) && call !in s.results
    ensures CallMoves(s, OwnershipKnown(call, owns, d), OnOwnership(s, call, owns, d), k)
  {}

  lemma ReturnMoves(s: State, call: CallId, k: CallId)
    requires Possible(s, CallReturns(call)) && call !in s.results
    ensures CallMoves(s, CallReturns(call), OnReturn(s, call), k)
  {}

  lemma SendMoves(s: State, call: CallId, ok: bool, k: CallId)
    requires Possible(s, SendReturned(call, ok))
    ensures CallMoves(s, SendReturned(call, ok), OnSent(s, call, ok), k)
  {}

  lemma OthersMoveNoCall(s: State, a: Action, k: CallId)
    requires Possible(s, a) && (a.TimerFires? || a.AckArrives? || a.EventArrives? || a.TailAdvances? || a.Close?)
    ensures CallMoves(s, a, Apply(s, a), k)
  {}

  lemma EveryCallMoves(s: State, a: Action, k: CallId)
    requires CallsAgree(s) && Possible(s, a)
    ensures CallMoves(s, a, Apply(s, a), k)
  {
    match a
    case Dispatch(run) => assert !(s.nextCall in s.calls || s.nextCall in s.results); DispatchMoves(s, run, k);
    case OwnershipKnown(call, owns, d) => assert call in s.calls; OwnershipMoves(s, call, owns, d, k);
    case CallReturns(call) => assert call in s.calls; ReturnMoves(s, call, k);
    case SendReturned(call, ok) => SendMoves(s, call, ok, k);
    case _ => OthersMoveNoCall(s, a, k);
  }

  lemma OnlyDispatchCounts(s: State, a: Action)
    requires Possible(s, a)
    ensures Apply(s, a).nextCall == if a.Dispatch? then s.nextCall + 1 else s.nextCall
  {
    match a
    case OwnershipKnown(call, owns, d) => OwnershipKeepsBook(s, call, owns, d);
    case SendReturned(call, ok) => SentKeepsBook(s, call, ok);
    case CallReturns(call) => ReturnKeepsBook(s, call);
    case _ =>
  }

  lemma OwnershipKeepsBook(s: State, k: CallId, owns: bool, d: CommandId)
    requires Possible(s, OwnershipKnown(k, owns, d))
    ensures var t := OnOwnership(s, k, owns, d); t.nextCall == s.nextCall && t.asked == s.asked
  {}

  lemma SentKeepsBook(s: State, k: CallId, ok: bool)
    requires Possible(s, SendReturned(k, ok))
    ensures var t := OnSent(s, k, ok); t.nextCall == s.nextCall && t.asked == s.asked
  {}

  lemma ReturnKeepsBook(s: State, k: CallId)
    requires Possible(s, CallReturns(k))
    ensures var t := OnReturn(s, k); t.nextCall == s.nextCall && t.asked == s.asked
  {}

  /** A call ends in exactly these three ways, with its stop if that resolved and with a failure otherwise, and once. */
  lemma CallsEndExactly(s: State, a: Action, k: CallId)
    requires CallsAgree(s) && Possible(s, a)
    ensures CallsAgree(Apply(s, a)) && CallMoves(s, a, Apply(s, a), k)
  {
    OnlyDispatchCounts(s, a);
    forall j: CallId
      ensures (j < Apply(s, a).nextCall <==> j in Apply(s, a).calls || j in Apply(s, a).results)
              && !(j in Apply(s, a).calls && j in Apply(s, a).results)
    {
      assert j < s.nextCall <==> j in s.calls || j in s.results;
      EveryCallMoves(s, a, j);
    }
    EveryCallMoves(s, a, k);
  }

  /** An owner of the run joins the stop under way, or sends the one just created; the send does not end the call. */
  lemma OwnersWaitForOneStop(s: State, k: CallId, c: CommandId, ok: bool)
    requires Inv(s) && Possible(s, OwnershipKnown(k, true, c))
    ensures var t, run := Apply(s, OwnershipKnown(k, true, c)), s.calls[k].run;
            if run in s.stoppingRuns then Waits(t, k, s.stoppingRuns[run]) && t.stops == s.stops
            else
              && Possible(t, SendReturned(k, ok)) && t.stops == s.stops[c := Stop(Pending, run, k)] && Armed(t, c)
              && var u := Apply(t, SendReturned(k, ok));
                 && Waits(u, k, c) && c in u.stops && u.stops[c].promise == (if ok then Pending else Rejected)
  {
    assert CommandAgrees(s, c);
  }

  /** A run is being stopped exactly while the call that created the stop is at work on it. */
  ghost predicate OwnerAtWork(s: State, r: RunId) {
    r in s.stoppingRuns ==>
      var c := s.stoppingRuns[r];
      && c in s.stops && s.stops[c].run == r && s.stops[c].owner in s.calls
      && (s.calls[s.stops[c].owner] == Sending(c) || s.calls[s.stops[c].owner] == Awaiting(c))
  }

  ghost predicate OwnersAtWork(s: State) {
    forall r: RunId :: OwnerAtWork(s, r)
  }

  lemma CreateKeepsOwner(s: State, k: CallId, run: RunId, d: CommandId, r: RunId)
    requires OwnerAtWork(s, r) && k in s.calls && s.calls[k] == Owning(run) && d !in s.stops
    ensures OwnerAtWork(Create(s, k, run, d), r)
  {}

  lemma JoinKeepsOwner(s: State, k: CallId, owns: bool, d: CommandId, r: RunId)
    requires OwnerAtWork(s, r) && Possible(s, OwnershipKnown(k, owns, d))
    requires !owns || s.calls[k].run in s.stoppingRuns
    ensures OwnerAtWork(OnOwnership(s, k, owns, d), r)
  {}

  lemma OwnershipKeepsOwner(s: State, k: CallId, owns: bool, d: CommandId, r: RunId)
    requires OwnerAtWork(s, r) && Possible(s, OwnershipKnown(k, owns, d))
    ensures OwnerAtWork(OnOwnership(s, k, owns, d), r)
  {
    if owns && s.calls[k].run !in s.stoppingRuns {
      CreateKeepsOwner(s, k, s.calls[k].run, d, r);
    } else {
      JoinKeepsOwner(s, k, owns, d, r);
    }
  }

  lemma ReturnKeepsOwner(s: State, k: CallId, r: RunId)
    requires OwnerAtWork(s, r) && Possible(s, CallReturns(k)) && CallAgrees(s, k)
    ensures OwnerAtWork(OnReturn(s, k), r)
  {}

  lemma SentKeepsOwner(s: State, k: CallId, ok: bool, r: RunId)
    requires OwnerAtWork(s, r) && Possible(s, SendReturned(k, ok)) && CallAgrees(s, k)
    ensures OwnerAtWork(OnSent(s, k, ok), r)
  {}

  lemma TailKeepsOwner(s: State, owns: bool, r: RunId)
    requires OwnerAtWork(s, r) && s.done < |s.chain|
    ensures OwnerAtWork(OnTail(s, owns), r)
  {
    if r in s.stoppingRuns { FinishKeepsIdentity(s.stops, s.chain[s.done], owns, s.stoppingRuns[r]); }
  }

  lemma OthersKeepOwner(s: State, a: Action, r: RunId)
    requires OwnerAtWork(s, r) && Possible(s, a) && CallsAgree(s)
    requires a.Dispatch? || a.TimerFires? || a.AckArrives? || a.EventArrives? || a.Close?
    ensures OwnerAtWork(Apply(s, a), r)
  {
    assert !(s.nextCall in s.calls || s.nextCall in s.results);
  }

  lemma StepKeepsOwners(s: State, a: Action)
    requires Inv(s) && CallsAgree(s) && OwnersAtWork(s) && Possible(s, a)
    ensures CallsAgree(Apply(s, a)) && OwnersAtWork(Apply(s, a))
  {
    CallsEndExactly(s, a, 0);
    forall r: RunId ensures OwnerAtWork(Apply(s, a), r) {
      assert OwnerAtWork(s, r);
      match a
      case OwnershipKnown(k, owns, d) => OwnershipKeepsOwner(s, k, owns, d, r);
      case CallReturns(k) => assert CallAgrees(s, k); ReturnKeepsOwner(s, k, r);
      case SendReturned(k, ok) => assert CallAgrees(s, k); SentKeepsOwner(s, k, ok, r);
      case TailAdvances(owns) => TailKeepsOwner(s, owns, r);
      case _ => OthersKeepOwner(s, a, r);
    }
  }

  lemma {:induction false} RunKeepsOwners(s: State, actions: seq<Action>)
    requires Inv(s) && CallsAgree(s) && OwnersAtWork(s) && IsRun(s, actions)
    ensures Inv(Run(s, actions)) && CallsAgree(Run(s, actions)) && OwnersAtWork(Run(s, actions))
    decreases actions
  {
    if actions != [] {
      StepKeepsInv(s, actions[0]);
      StepKeepsOwners(s, actions[0]);
      RunKeepsOwners(Apply(s, actions[0]), actions[1..]);
    }
  }

  /**
   Over every run: each call is under way or has returned, and a run is being stopped if and only if an
   owner is at it.
   */
  lemma StoppingExactly(actions: seq<Action>, r: RunId)
    requires IsRun(Initial(), actions)
    ensures var s := Run(Initial(), actions);
            && CallsAgree(s)
            && (r in s.stoppingRuns <==>
                  exists k :: k in s.calls && (s.calls[k].Sending? || s.calls[k].Awaiting?)
                    && s.calls[k].command in s.stops && s.stops[s.calls[k].command].run == r)
  {
    RunKeepsOwners(Initial(), actions);
    var s := Run(Initial(), actions);
    assert OwnerAtWork(s, r);
    if k :| k in s.calls && (s.calls[k].Sending? || s.calls[k].Awaiting?)
            && s.calls[k].command in s.stops && s.stops[s.calls[k].command].run == r
    {
      assert CallAgrees(s, k);
    }
  }

  // ---------------------------------------------------------------- nothing accepted is lost

  function Tails(n: nat): seq<Action> {
    seq(n, _ => TailAdvances(true))
  }

  /** As `tail` goes on, an accepted stop that is queued resolves, and every call goes on waiting. */
  lemma {:induction false} QueuedStopResolves(s: State, c: CommandId, n: nat)
    requires Inv(s) && VerdictsAgree(s) && Queued(s, c) && c in s.confirmed && c in s.stops
             && s.stops[c].promise == Pending
    requires s.settleAt[c] == s.done + n
    ensures IsRun(s, Tails(n + 1))
    ensures var t := Run(s, Tails(n + 1));
            t.calls == s.calls && t.results == s.results && c in t.stops && t.stops[c].promise == Resolved
    decreases n
  {
    assert CommandAgrees(s, c) && VerdictAgrees(s, c);
    var a := TailAdvances(true);
    var t := Apply(s, a);
    assert Tails(n + 1)[1..] == Tails(n);
    FinishChanges(s.stops, s.chain[s.done], true, c);
    if n > 0 {
      assert WorkAgrees(s, s.done);
      StepKeepsInv(s, a);
      StepKeepsVerdicts(s, a);
      QueuedStopResolves(t, c, n - 1);
    } else {
      assert IsRun(t, Tails(0)) && Run(t, Tails(0)) == t;
    }
  }

  function Resolution(c: CommandId, n: nat, k: CallId): seq<Action> {
    [AckArrives(c, true)] + (Tails(n) + [CallReturns(k)])
  }

  lemma {:induction false} RunsCompose(s: State, first: seq<Action>, second: seq<Action>)
    requires IsRun(s, first) && IsRun(Run(s, first), second)
    ensures IsRun(s, first + second) && Run(s, first + second) == Run(Run(s, first), second)
    decreases first
  {
    if first == [] {
      EmptyIsNeutral(second);
    } else {
      RunsCompose(Apply(s, first[0]), first[1..], second);
      Associative([first[0]], first[1..], second);
      assert first == [first[0]] + first[1..];
      Follows(s, first[0], first[1..] + second);
    }
  }

  /**
   Main result: from any reachable state in which a call waits for its stop on an open binding, the accepting ack, the
   work queued before it and the call's own turn make the call return that very stop.
   */
  lemma AcceptedStopResolvesItsCall(s: State, k: CallId, c: CommandId)
    requires Inv(s) && VerdictsAgree(s) && TakesAck(s, c) && c in s.stops && s.stops[c].promise == Pending
    requires k in s.calls && (s.calls[k].Awaiting? || s.calls[k].Joined?) && s.calls[k].command == c
    ensures var n := |s.chain| - s.done + 1;
            && 0 <= n && IsRun(s, Resolution(c, n, k))
            && k in Run(s, Resolution(c, n, k)).results && Run(s, Resolution(c, n, k)).results[k] == Some(c)
  {
    var a := AckArrives(c, true);
    var t := Apply(s, a);
    var n := |s.chain| - s.done;
    AckIsQueued(s, c, true);
    StepKeepsInv(s, a);
    StepKeepsVerdicts(s, a);
    QueuedStopResolves(t, c, n);
    var u := Run(t, Tails(n + 1));
    Follows(u, CallReturns(k), []);
    EmptyIsNeutral([CallReturns(k)]);
    RunsCompose(t, Tails(n + 1), [CallReturns(k)]);
    Follows(s, a, Tails(n + 1) + [CallReturns(k)]);
  }

  /** What a call asked for is never rewritten. */
  lemma {:induction false} AskedStays(s: State, actions: seq<Action>, k: CallId)
    requires IsRun(s, actions) && k in s.asked && k < s.nextCall
    ensures k in Run(s, actions).asked && Run(s, actions).asked[k] == s.asked[k]
    decreases actions
  {
    if actions != [] {
      OnlyDispatchCounts(s, actions[0]);
      OnlyDispatchAsks(s, actions[0]);
      AskedStays(Apply(s, actions[0]), actions[1..], k);
    }
  }

  lemma OnlyDispatchAsks(s: State, a: Action)
    requires Possible(s, a)
    ensures Apply(s, a).asked == if a.Dispatch? then s.asked[s.nextCall := a.run] else s.asked
  {
    match a
    case OwnershipKnown(call, owns, d) => OwnershipKeepsBook(s, call, owns, d);
    case SendReturned(call, ok) => SentKeepsBook(s, call, ok);
    case CallReturns(call) => ReturnKeepsBook(s, call);
    case _ =>
  }

  /** A concrete run from the start in which a call returns its stop. */
  lemma SomeCallResolves()
    ensures var actions := [Dispatch("r"), OwnershipKnown(0, true, 7), SendReturned(0, true)] + Resolution(7, 1, 0);
            && IsRun(Initial(), actions)
            && 0 in Run(Initial(), actions).results && Run(Initial(), actions).results[0] == Some(7)
  {
    var a, b, c := Dispatch("r"), OwnershipKnown(0, true, 7), SendReturned(0, true);
    var s := Apply(Apply(Apply(Initial(), a), b), c);
    RunOfThree(Initial(), a, b, c, []);
    EmptyIsNeutral([a, b, c]);
    RunKeepsVerdicts(Initial(), [a, b, c]);
    AcceptedStopResolvesItsCall(s, 0, 7);
    RunOfThree(Initial(), a, b, c, Resolution(7, 1, 0));
  }
}
