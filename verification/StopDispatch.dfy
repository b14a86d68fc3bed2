/**
 How one server binding waits for confirmed stops (apps/server/src/node-binding.ts):
 `dispatchRunStop` with its timer, the inbound frames, and the serialized `tail` on
 which events are ingested and stops are settled.
 */
module StopDispatch {
  import opened Common

  type CommandId = nat
  type RunId = string
  type CallId = nat

  datatype Promise = Pending | Resolved | Rejected

  /** A stop that was sent: its promise, its run, and the call that created it. */
  datatype Stop = Stop(promise: Promise, run: RunId, owner: CallId)

  /** Work chained on `tail`: ingest the n-th received event, or settle a stop by its ack. */
  datatype Work = Ingest(event: nat) | Settle(command: CommandId, accepted: bool)

  /** Where a `dispatchRunStop` call waits: for the ownership check, the send, its own promise, or another call's. */
  datatype CallPc =
    | Owning(run: RunId)
    | Sending(command: CommandId)
    | Awaiting(command: CommandId)
    | Joined(command: CommandId)

  /**
   The binding's maps, and what happened so far. `chain` is all work ever put on
   `tail`, of which the first `done` items have finished; `eventAt` and `settleAt` say
   where in it each event and each settlement stands; `marks` how many events had been
   received when a stop's ack came in; `confirmed` which stops got an accepting ack;
   `asked` the run each call wants stopped, and `results` the stop that resolved each
   finished call (`None`: the call failed).
   */
  datatype State = State(
    closed: bool, pendingStops: map<CommandId, RunId>, timers: set<CommandId>, stoppingRuns: map<RunId, CommandId>,
    chain: seq<Work>, done: nat, calls: map<CallId, CallPc>, nextCall: CallId,
    stops: map<CommandId, Stop>, eventAt: seq<nat>, settleAt: map<CommandId, nat>,
    marks: map<CommandId, nat>, confirmed: set<CommandId>,
    asked: map<CallId, RunId>, results: map<CallId, Option<CommandId>>)

  function Initial(): State {
    State(false, map[], {}, map[], [], 0, map[], 0, map[], [], map[], map[], {}, map[], map[])
  }

  datatype Action =
    | Dispatch(run: RunId)
    | OwnershipKnown(call: CallId, owns: bool, command: CommandId)
    | SendReturned(call: CallId, ok: bool)
    | CallReturns(call: CallId)
    | TimerFires(command: CommandId)
    | AckArrives(command: CommandId, accepted: bool)
    | EventArrives
    | TailAdvances(owns: bool)
    | Close

  predicate Settled(s: State, c: CommandId) {
    c in s.stops && s.stops[c].promise != Pending
  }

  /** Timers fire only while armed, a command id is new, and a call returns when its promise is settled. */
  predicate Possible(s: State, a: Action) {
    match a
    case OwnershipKnown(call, _, c) => call in s.calls && s.calls[call].Owning? && c !in s.stops
    case SendReturned(call, _) => call in s.calls && s.calls[call].Sending?
    case CallReturns(call) =>
      call in s.calls && (s.calls[call].Awaiting? || s.calls[call].Joined?) && Settled(s, s.calls[call].command)
    case TimerFires(c) => c in s.timers
    case TailAdvances(_) => s.done < |s.chain|
    case _ => true
  }

  /** A promise settles once; later attempts are ignored. */
  function SettleStop(stops: map<CommandId, Stop>, c: CommandId, outcome: Promise): map<CommandId, Stop> {
    if c in stops && stops[c].promise == Pending then stops[c := stops[c].(promise := outcome)] else stops
  }

  /** What finishing one piece of work does to the stops. */
  function Finish(stops: map<CommandId, Stop>, w: Work, owns: bool): map<CommandId, Stop> {
    match w
    case Ingest(_) => stops
    case Settle(c, accepted) => SettleStop(stops, c, if owns && accepted then Resolved else Rejected)
  }

  function Forget(s: State, c: CommandId): State {
    s.(pendingStops := s.pendingStops - {c}, timers := s.timers - {c})
  }

  function OnDispatch(s: State, run: RunId): State {
    var k := s.nextCall;
    var n := s.(nextCall := k + 1, asked := s.asked[k := run]);
    if s.closed then n.(results := s.results[k := None]) else n.(calls := s.calls[k := Owning(run)])
  }

  /** Send a new stop for the call: the map entry, its timer and the promise other calls will join. */
  function Create(s: State, call: CallId, run: RunId, c: CommandId): State {
    s.(pendingStops := s.pendingStops[c := run], timers := s.timers + {c}, stoppingRuns := s.stoppingRuns[run := c],
       stops := s.stops[c := Stop(Pending, run, call)], calls := s.calls[call := Sending(c)])
  }

  function OnOwnership(s: State, call: CallId, owns: bool, c: CommandId): State
    requires Possible(s, OwnershipKnown(call, owns, c))
  {
    var run := s.calls[call].run;
    if !owns then s.(calls := s.calls - {call}, results := s.results[call := None])
    else if run in s.stoppingRuns then s.(calls := s.calls[call := Joined(s.stoppingRuns[run])])
    else Create(s, call, run, c)
  }

  function OnSent(s: State, call: CallId, ok: bool): State
    requires Possible(s, SendReturned(call, ok))
  {
    var c := s.calls[call].command;
    s.(calls := s.calls[call := Awaiting(c)],
       stops := if !ok && c in s.pendingStops then SettleStop(s.stops, c, Rejected) else s.stops)
  }

  /** The call's promise is settled: its `finally` runs if it owns the promise, and it reports the outcome. */
  function OnReturn(s: State, call: CallId): State
    requires Possible(s, CallReturns(call))
  {
    var c := s.calls[call].command;
    var mine := s.calls[call].Awaiting?;
    s.(calls := s.calls - {call},
       results := s.results[call := if s.stops[c].promise == Resolved then Some(c) else None],
       pendingStops := if mine then s.pendingStops - {c} else s.pendingStops,
       timers := if mine then s.timers - {c} else s.timers,
       stoppingRuns := if mine then s.stoppingRuns - {s.stops[c].run} else s.stoppingRuns)
  }

  function OnTimer(s: State, c: CommandId): State {
    Forget(s, c).(stops := SettleStop(s.stops, c, Rejected))
  }

  function OnAck(s: State, c: CommandId, accepted: bool): State {
    if s.closed || c !in s.pendingStops then s
    else Forget(s, c).(chain := s.chain + [Settle(c, accepted)], settleAt := s.settleAt[c := |s.chain|],
                       marks := s.marks[c := |s.eventAt|],
                       confirmed := if accepted then s.confirmed + {c} else s.confirmed)
  }

  function OnEvent(s: State): State {
    if s.closed then s
    else s.(chain := s.chain + [Ingest(|s.eventAt|)], eventAt := s.eventAt + [|s.chain|])
  }

  function OnTail(s: State, owns: bool): State
    requires s.done < |s.chain|
  {
    s.(done := s.done + 1, stops := Finish(s.stops, s.chain[s.done], owns))
  }

  function OnClose(s: State): State {
    s.(closed := true, pendingStops := map[], timers := {},
       stops := map c | c in s.stops ::
         if c in s.pendingStops && s.stops[c].promise == Pending then s.stops[c].(promise := Rejected) else s.stops[c])
  }

  function Apply(s: State, a: Action): State
    requires Possible(s, a)
  {
    match a
    case Dispatch(run) => OnDispatch(s, run)
    case OwnershipKnown(call, owns, c) => OnOwnership(s, call, owns, c)
    case SendReturned(call, ok) => OnSent(s, call, ok)
    case CallReturns(call) => OnReturn(s, call)
    case TimerFires(c) => OnTimer(s, c)
    case AckArrives(c, accepted) => OnAck(s, c, accepted)
    case EventArrives => OnEvent(s)
    case TailAdvances(owns) => OnTail(s, owns)
    case Close => OnClose(s)
  }

  predicate IsRun(s: State, actions: seq<Action>)
    decreases actions
  {
    actions == [] || (Possible(s, actions[0]) && IsRun(Apply(s, actions[0]), actions[1..]))
  }

  function Run(s: State, actions: seq<Action>): State
    requires IsRun(s, actions)
    decreases actions
  {
    if actions == [] then s else Run(Apply(s, actions[0]), actions[1..])
  }

  // ---------------------------------------------------------------- the invariant

  /** Waiting with an armed timer, or chained behind its ack: the two ways of not being settled. */
  predicate Armed(s: State, c: CommandId) {
    c in s.pendingStops && c in s.timers && c !in s.settleAt
  }

  predicate Queued(s: State, c: CommandId) {
    c !in s.pendingStops && c !in s.timers && c in s.settleAt && s.settleAt[c] >= s.done
  }

  /** What is known of one command id. */
  ghost predicate CommandAgrees(s: State, c: CommandId) {
    && (c in s.timers <==> c in s.pendingStops)
    && (c in s.pendingStops ==> c in s.stops && s.stops[c].promise != Resolved && c !in s.settleAt)
    && (c in s.stops && s.stops[c].promise == Pending ==>
          (Armed(s, c) || Queued(s, c)) && s.stops[c].run in s.stoppingRuns && s.stoppingRuns[s.stops[c].run] == c)
    && (c in s.stops && s.stops[c].promise == Resolved ==>
          c in s.confirmed && c in s.settleAt && s.settleAt[c] < s.done)
    && (c in s.settleAt ==>
          && c in s.stops && s.settleAt[c] < |s.chain|
          && s.chain[s.settleAt[c]].Settle? && s.chain[s.settleAt[c]].command == c)
  }

  ghost predicate CallAgrees(s: State, k: CallId) {
    && (k in s.calls || k in s.results ==> k < s.nextCall && k in s.asked)
    && (k in s.results && s.results[k].Some? ==>
          var c := s.results[k].value; c in s.stops && s.stops[c].promise == Resolved && s.stops[c].run == s.asked[k])
    && (k in s.calls ==>
      && (s.calls[k].Owning? ==> s.calls[k].run == s.asked[k])
      && (!s.calls[k].Owning? ==> s.calls[k].command in s.stops && s.stops[s.calls[k].command].run == s.asked[k])
      && (s.calls[k].Sending? || s.calls[k].Awaiting? ==>
            var stop := s.stops[s.calls[k].command];
            stop.owner == k && stop.run in s.stoppingRuns && s.stoppingRuns[stop.run] == s.calls[k].command))
  }

  ghost predicate RunAgrees(s: State, r: RunId) {
    r in s.stoppingRuns ==> s.stoppingRuns[r] in s.stops && s.stops[s.stoppingRuns[r]].run == r
  }

  /** The n-th event stands where `eventAt` says, behind all earlier ones. */
  ghost predicate EventAgrees(s: State, n: nat) {
    n < |s.eventAt| ==>
      && s.eventAt[n] < |s.chain| && s.chain[s.eventAt[n]] == Ingest(n)
      && (forall m | 0 <= m < n :: s.eventAt[m] < s.eventAt[n])
  }

  /** Each settlement stands in the chain once, and only an accepting ack puts an accepting one there. */
  ghost predicate WorkAgrees(s: State, p: nat) {
    p < |s.chain| && s.chain[p].Settle? ==>
      var c := s.chain[p].command;
      c in s.settleAt && s.settleAt[c] == p && (s.chain[p].accepted ==> c in s.confirmed)
  }

  /** A settlement stands behind the events its mark counts. */
  ghost predicate MarkAgrees(s: State, c: CommandId) {
    c in s.settleAt ==>
      && c in s.marks && s.marks[c] <= |s.eventAt|
      && (forall n | 0 <= n < s.marks[c] :: s.eventAt[n] < s.settleAt[c])
  }

  ghost predicate ChainAgrees(s: State) {
    && s.done <= |s.chain|
    && (forall n: nat :: EventAgrees(s, n))
    && (forall p: nat :: WorkAgrees(s, p))
    && (forall c: CommandId :: MarkAgrees(s, c))
  }

  lemma ChainKeepsAgreeing(s: State, t: State)
    requires ChainAgrees(s) && s.done <= t.done <= |t.chain|
    requires t.chain == s.chain && t.eventAt == s.eventAt && t.settleAt == s.settleAt && t.marks == s.marks
             && t.confirmed == s.confirmed
    ensures ChainAgrees(t)
  {
    forall n: nat ensures EventAgrees(t, n) { assert EventAgrees(s, n); }
    forall p: nat ensures WorkAgrees(t, p) { assert WorkAgrees(s, p); }
    forall c: CommandId ensures MarkAgrees(t, c) { assert MarkAgrees(s, c); }
  }

  ghost predicate Inv(s: State) {
    && (forall c: CommandId :: CommandAgrees(s, c))
    && (forall k: CallId :: CallAgrees(s, k))
    && (forall r: RunId :: RunAgrees(s, r))
    && ChainAgrees(s)
  }

  lemma CreateKeepsInv(s: State, call: CallId, c: CommandId)
    requires Inv(s) && call in s.calls && s.calls[call].Owning? && c !in s.stops && s.calls[call].run !in s.stoppingRuns
    ensures Inv(Create(s, call, s.calls[call].run, c))
  {
    var t := Create(s, call, s.calls[call].run, c);
    ChainKeepsAgreeing(s, t);
    forall d: CommandId ensures CommandAgrees(t, d) { assert CommandAgrees(s, d) && CommandAgrees(s, c); }
    forall k: CallId ensures CallAgrees(t, k) { assert CallAgrees(s, k) && CallAgrees(s, call); }
    forall r: RunId ensures RunAgrees(t, r) { assert RunAgrees(s, r); }
  }

  lemma DispatchKeepsCommand(s: State, run: RunId, c: CommandId)
    requires CommandAgrees(s, c)
    ensures CommandAgrees(OnDispatch(s, run), c)
  {}

  lemma DispatchKeepsCall(s: State, run: RunId, k: CallId)
    requires CallAgrees(s, k)
    ensures CallAgrees(OnDispatch(s, run), k)
  {}

  lemma DispatchKeepsInv(s: State, run: RunId)
    requires Inv(s)
    ensures Inv(OnDispatch(s, run))
  {
    var t := OnDispatch(s, run);
    ChainKeepsAgreeing(s, t);
    forall c: CommandId ensures CommandAgrees(t, c) {
      assert CommandAgrees(s, c);
      DispatchKeepsCommand(s, run, c);
    }
    forall k: CallId ensures CallAgrees(t, k) {
      assert CallAgrees(s, k);
      DispatchKeepsCall(s, run, k);
    }
    forall r: RunId ensures RunAgrees(t, r) { assert RunAgrees(s, r); }
  }

  lemma JoinKeepsCommand(s: State, call: CallId, owns: bool, unused: CommandId, c: CommandId)
    requires Possible(s, OwnershipKnown(call, owns, unused)) && (owns ==> s.calls[call].run in s.stoppingRuns)
    requires CommandAgrees(s, c)
    ensures CommandAgrees(OnOwnership(s, call, owns, unused), c)
  {}

  lemma JoinKeepsCall(s: State, call: CallId, owns: bool, unused: CommandId, k: CallId)
    requires Possible(s, OwnershipKnown(call, owns, unused)) && (owns ==> s.calls[call].run in s.stoppingRuns)
    requires CallAgrees(s, k) && CallAgrees(s, call) && RunAgrees(s, s.calls[call].run)
    ensures CallAgrees(OnOwnership(s, call, owns, unused), k)
  {}

  lemma JoinKeepsInv(s: State, call: CallId, owns: bool, unused: CommandId)
    requires Inv(s) && Possible(s, OwnershipKnown(call, owns, unused)) && (owns ==> s.calls[call].run in s.stoppingRuns)
    ensures Inv(OnOwnership(s, call, owns, unused))
  {
    var t := OnOwnership(s, call, owns, unused);
    ChainKeepsAgreeing(s, t);
    assert CallAgrees(s, call) && RunAgrees(s, s.calls[call].run);
    forall c: CommandId ensures CommandAgrees(t, c) {
      assert CommandAgrees(s, c);
      JoinKeepsCommand(s, call, owns, unused, c);
    }
    forall k: CallId ensures CallAgrees(t, k) {
      assert CallAgrees(s, k);
      JoinKeepsCall(s, call, owns, unused, k);
    }
    forall r: RunId ensures RunAgrees(t, r) { assert RunAgrees(s, r); }
  }

  lemma SentKeepsCommand(s: State, call: CallId, ok: bool, c: CommandId)
    requires Possible(s, SendReturned(call, ok))
    requires CommandAgrees(s, c)
    ensures CommandAgrees(OnSent(s, call, ok), c)
  {}

  lemma SentKeepsCall(s: State, call: CallId, ok: bool, k: CallId)
    requires Possible(s, SendReturned(call, ok))
    requires CallAgrees(s, k) && CallAgrees(s, call)
    ensures CallAgrees(OnSent(s, call, ok), k)
  {}

  lemma SentKeepsInv(s: State, call: CallId, ok: bool)
    requires Inv(s) && Possible(s, SendReturned(call, ok))
    ensures Inv(OnSent(s, call, ok))
  {
    var t := OnSent(s, call, ok);
    ChainKeepsAgreeing(s, t);
    assert CallAgrees(s, call);
    forall c: CommandId ensures CommandAgrees(t, c) {
      assert CommandAgrees(s, c);
      SentKeepsCommand(s, call, ok, c);
    }
    forall k: CallId ensures CallAgrees(t, k) {
      assert CallAgrees(s, k);
      SentKeepsCall(s, call, ok, k);
    }
    forall r: RunId ensures RunAgrees(t, r) { assert RunAgrees(s, r); }
  }

  lemma ReturnKeepsCommand(s: State, call: CallId, c: CommandId)
    requires Possible(s, CallReturns(call))
    requires CommandAgrees(s, c) && CallAgrees(s, call)
    ensures CommandAgrees(OnReturn(s, call), c)
  {}

  lemma ReturnKeepsCall(s: State, call: CallId, k: CallId)
    requires Possible(s, CallReturns(call))
    requires CallAgrees(s, k) && CallAgrees(s, call)
    ensures CallAgrees(OnReturn(s, call), k)
  {}

  lemma ReturnKeepsInv(s: State, call: CallId)
    requires Inv(s) && Possible(s, CallReturns(call))
    ensures Inv(OnReturn(s, call))
  {
    var t := OnReturn(s, call);
    ChainKeepsAgreeing(s, t);
    assert CallAgrees(s, call);
    forall c: CommandId ensures CommandAgrees(t, c) {
      assert CommandAgrees(s, c);
      ReturnKeepsCommand(s, call, c);
    }
    forall k: CallId ensures CallAgrees(t, k) {
      assert CallAgrees(s, k);
      ReturnKeepsCall(s, call, k);
    }
    forall r: RunId ensures RunAgrees(t, r) { assert RunAgrees(s, r); }
  }

  lemma TimerKeepsCommand(s: State, command: CommandId, c: CommandId)
    requires CommandAgrees(s, c)
    ensures CommandAgrees(OnTimer(s, command), c)
  {}

  lemma TimerKeepsCall(s: State, command: CommandId, k: CallId)
    requires CallAgrees(s, k)
    ensures CallAgrees(OnTimer(s, command), k)
  {}

  lemma TimerKeepsInv(s: State, command: CommandId)
    requires Inv(s)
    ensures Inv(OnTimer(s, command))
  {
    var t := OnTimer(s, command);
    ChainKeepsAgreeing(s, t);
    forall c: CommandId ensures CommandAgrees(t, c) {
      assert CommandAgrees(s, c);
      TimerKeepsCommand(s, command, c);
    }
    forall k: CallId ensures CallAgrees(t, k) {
      assert CallAgrees(s, k);
      TimerKeepsCall(s, command, k);
    }
    forall r: RunId ensures RunAgrees(t, r) { assert RunAgrees(s, r); }
  }

  lemma FinishChanges(stops: map<CommandId, Stop>, w: Work, owns: bool, c: CommandId)
    requires c in stops
    ensures Finish(stops, w, owns).Keys == stops.Keys
    ensures Finish(stops, w, owns)[c] == stops[c] || (w.Settle? && w.command == c && stops[c].promise == Pending
              && Finish(stops, w, owns)[c] == stops[c].(promise := if owns && w.accepted then Resolved else Rejected))
  {}

  lemma FinishKeepsIdentity(stops: map<CommandId, Stop>, w: Work, owns: bool, c: CommandId)
    requires c in stops
    ensures var after := Finish(stops, w, owns);
            && c in after && after[c].run == stops[c].run && after[c].owner == stops[c].owner
            && (stops[c].promise == Resolved ==> after[c].promise == Resolved)
  {}

  lemma TailKeepsCommand(s: State, owns: bool, c: CommandId)
    requires s.done < |s.chain| && CommandAgrees(s, c) && WorkAgrees(s, s.done)
    ensures CommandAgrees(OnTail(s, owns), c)
  {
    if c in s.stops { FinishChanges(s.stops, s.chain[s.done], owns, c); }
  }

  lemma TailKeepsCall(s: State, owns: bool, k: CallId)
    requires s.done < |s.chain| && CallAgrees(s, k)
    ensures CallAgrees(OnTail(s, owns), k)
  {
    var w := s.chain[s.done];
    if k in s.results && s.results[k].Some? { FinishKeepsIdentity(s.stops, w, owns, s.results[k].value); }
    if k in s.calls && !s.calls[k].Owning? { FinishKeepsIdentity(s.stops, w, owns, s.calls[k].command); }
  }

  lemma TailKeepsInv(s: State, owns: bool)
    requires Inv(s) && s.done < |s.chain|
    ensures Inv(OnTail(s, owns))
  {
    var t := OnTail(s, owns);
    ChainKeepsAgreeing(s, t);
    assert WorkAgrees(s, s.done);
    forall c: CommandId ensures CommandAgrees(t, c) {
      assert CommandAgrees(s, c);
      TailKeepsCommand(s, owns, c);
    }
    forall k: CallId ensures CallAgrees(t, k) {
      assert CallAgrees(s, k);
      TailKeepsCall(s, owns, k);
    }
    forall r: RunId ensures RunAgrees(t, r) { assert RunAgrees(s, r); }
  }

  lemma CloseKeepsCommand(s: State, c: CommandId)
    requires CommandAgrees(s, c)
    ensures CommandAgrees(OnClose(s), c)
  {}

  lemma CloseKeepsCall(s: State, k: CallId)
    requires CallAgrees(s, k)
    ensures CallAgrees(OnClose(s), k)
  {}

  lemma CloseKeepsInv(s: State)
    requires Inv(s)
    ensures Inv(OnClose(s))
  {
    var t := OnClose(s);
    ChainKeepsAgreeing(s, t);
    forall c: CommandId ensures CommandAgrees(t, c) {
      assert CommandAgrees(s, c);
      CloseKeepsCommand(s, c);
    }
    forall k: CallId ensures CallAgrees(t, k) {
      assert CallAgrees(s, k);
      CloseKeepsCall(s, k);
    }
    forall r: RunId ensures RunAgrees(t, r) { assert RunAgrees(s, r); }
  }

  lemma EventKeepsInv(s: State)
    requires Inv(s)
    ensures Inv(OnEvent(s))
  {
    var t := OnEvent(s);
    forall n: nat ensures EventAgrees(t, n) {
      assert EventAgrees(s, n);
      forall m: nat | m < |s.eventAt| ensures s.eventAt[m] < |s.chain| { assert EventAgrees(s, m); }
    }
    forall p: nat ensures WorkAgrees(t, p) { assert WorkAgrees(s, p); }
    forall c: CommandId ensures MarkAgrees(t, c) && CommandAgrees(t, c) {
      assert MarkAgrees(s, c) && CommandAgrees(s, c);
    }
    forall k: CallId ensures CallAgrees(t, k) { assert CallAgrees(s, k); }
    forall r: RunId ensures RunAgrees(t, r) { assert RunAgrees(s, r); }
  }

  lemma AckKeepsInv(s: State, command: CommandId, accepted: bool)
    requires Inv(s)
    ensures Inv(OnAck(s, command, accepted))
  {
    var t := OnAck(s, command, accepted);
    assert CommandAgrees(s, command);
    forall n: nat ensures EventAgrees(t, n) { assert EventAgrees(s, n); }
    forall p: nat ensures WorkAgrees(t, p) { assert WorkAgrees(s, p); }
    forall c: CommandId ensures MarkAgrees(t, c) {
      assert MarkAgrees(s, c);
      assert forall n: nat :: EventAgrees(s, n);
      forall n: nat | n < |s.eventAt| ensures s.eventAt[n] < |s.chain| { assert EventAgrees(s, n); }
    }
    forall c: CommandId ensures CommandAgrees(t, c) { assert CommandAgrees(s, c); }
    forall k: CallId ensures CallAgrees(t, k) { assert CallAgrees(s, k); }
    forall r: RunId ensures RunAgrees(t, r) { assert RunAgrees(s, r); }
  }

  lemma StepKeepsInv(s: State, a: Action)
    requires Inv(s) && Possible(s, a)
    ensures Inv(Apply(s, a))
  {
    match a
    case Dispatch(run) => DispatchKeepsInv(s, run);
    case OwnershipKnown(call, owns, c) =>
      if owns && s.calls[call].run !in s.stoppingRuns {
        CreateKeepsInv(s, call, c);
      } else {
        JoinKeepsInv(s, call, owns, c);
      }
    case SendReturned(call, ok) => SentKeepsInv(s, call, ok);
    case CallReturns(call) => ReturnKeepsInv(s, call);
    case TimerFires(c) => TimerKeepsInv(s, c);
    case AckArrives(c, accepted) => AckKeepsInv(s, c, accepted);
    case EventArrives => EventKeepsInv(s);
    case TailAdvances(owns) => TailKeepsInv(s, owns);
    case Close => CloseKeepsInv(s);
  }

  lemma {:induction false} RunKeepsInv(s: State, actions: seq<Action>)
    requires Inv(s) && IsRun(s, actions)
    ensures Inv(Run(s, actions))
    decreases actions
  {
    if actions != [] {
      StepKeepsInv(s, actions[0]);
      RunKeepsInv(Apply(s, actions[0]), actions[1..]);
    }
  }

  // ---------------------------------------------------------------- what it means

  /** A stop that waits in the map or on the chain although its promise has settled. */
  predicate Lingers(s: State, c: CommandId) {
    Settled(s, c) && (Armed(s, c) || Queued(s, c))
  }

  /**
   The stops whose send has failed while their entry was there, and which have not left since: by
   their timer, by their caller's `finally`, by the close, or by the settlement of an ack.
   */
  function UnsentAfter(s: State, a: Action, unsent: set<CommandId>): set<CommandId>
    requires Possible(s, a)
  {
    match a
    case SendReturned(k, ok) =>
      var c := s.calls[k].command;
      if !ok && c in s.pendingStops then unsent + {c} else unsent
    case CallReturns(k) =>
      var c := s.calls[k].command;
      if s.calls[k].Awaiting? && c in s.pendingStops then unsent - {c} else unsent
    case TimerFires(c) => unsent - {c}
    case TailAdvances(_) => if s.chain[s.done].Settle? then unsent - {s.chain[s.done].command} else unsent
    case Close => unsent - s.pendingStops.Keys
    case _ => unsent
  }

  function Unsent(s: State, actions: seq<Action>, unsent: set<CommandId>): set<CommandId>
    requires IsRun(s, actions)
    decreases actions
  {
    if actions == [] then unsent
    else Unsent(Apply(s, actions[0]), actions[1..], UnsentAfter(s, actions[0], unsent))
  }

  lemma TailEndsLinger(s: State, owns: bool, c: CommandId)
    requires s.done < |s.chain| && CommandAgrees(s, c) && WorkAgrees(s, s.done)
    ensures Lingers(OnTail(s, owns), c) <==>
              Lingers(s, c) && !(s.chain[s.done].Settle? && s.chain[s.done].command == c)
  {
    if c in s.stops { FinishChanges(s.stops, s.chain[s.done], owns, c); }
  }

  lemma SentStartsLinger(s: State, k: CallId, ok: bool, c: CommandId)
    requires Possible(s, SendReturned(k, ok)) && CommandAgrees(s, c)
    ensures Lingers(OnSent(s, k, ok), c) <==>
              Lingers(s, c) || (!ok && c == s.calls[k].command && c in s.pendingStops)
  {}

  lemma ReturnEndsLinger(s: State, k: CallId, c: CommandId)
    requires Possible(s, CallReturns(k)) && CommandAgrees(s, c)
    ensures Lingers(OnReturn(s, k), c) <==>
              Lingers(s, c) && !(s.calls[k].Awaiting? && c == s.calls[k].command && c in s.pendingStops)
  {}

  lemma TimerEndsLinger(s: State, d: CommandId, c: CommandId)
    requires d in s.timers && CommandAgrees(s, c)
    ensures Lingers(OnTimer(s, d), c) <==> Lingers(s, c) && c != d
  {}

  lemma CloseEndsLinger(s: State, c: CommandId)
    requires CommandAgrees(s, c)
    ensures Lingers(OnClose(s), c) <==> Lingers(s, c) && c !in s.pendingStops
  {}

  lemma AckKeepsLinger(s: State, d: CommandId, accepted: bool, c: CommandId)
    requires CommandAgrees(s, c) && s.done <= |s.chain|
    ensures Lingers(OnAck(s, d, accepted), c) <==> Lingers(s, c)
  {}

  lemma CreateKeepsLinger(s: State, k: CallId, run: RunId, d: CommandId, c: CommandId)
    requires d !in s.stops && CommandAgrees(s, c)
    ensures Lingers(Create(s, k, run, d), c) <==> Lingers(s, c)
  {}

  lemma OwnershipKeepsLinger(s: State, k: CallId, owns: bool, d: CommandId, c: CommandId)
    requires Possible(s, OwnershipKnown(k, owns, d)) && CommandAgrees(s, c)
    ensures Lingers(OnOwnership(s, k, owns, d), c) <==> Lingers(s, c)
  {
    CreateKeepsLinger(s, k, s.calls[k].run, d, c);
  }

  lemma UnsentLinger(s: State, a: Action, unsent: set<CommandId>, c: CommandId)
    requires Inv(s) && Possible(s, a) && (Lingers(s, c) <==> c in unsent)
    ensures Lingers(Apply(s, a), c) <==> c in UnsentAfter(s, a, unsent)
  {
    assert CommandAgrees(s, c);
    match a
    case SendReturned(k, ok) => SentStartsLinger(s, k, ok, c);
    case CallReturns(k) => ReturnEndsLinger(s, k, c);
    case TimerFires(d) => TimerEndsLinger(s, d, c);
    case TailAdvances(owns) => assert WorkAgrees(s, s.done); TailEndsLinger(s, owns, c);
    case Close => CloseEndsLinger(s, c);
    case AckArrives(d, accepted) => AckKeepsLinger(s, d, accepted, c);
    case OwnershipKnown(k, owns, d) => OwnershipKeepsLinger(s, k, owns, d, c);
    case _ =>
  }

  lemma {:induction false} LingersIffUnsent(s: State, actions: seq<Action>, unsent: set<CommandId>, c: CommandId)
    requires Inv(s) && IsRun(s, actions) && (Lingers(s, c) <==> c in unsent)
    ensures Lingers(Run(s, actions), c) <==> c in Unsent(s, actions, unsent)
    decreases actions
  {
    if actions != [] {
      var a := actions[0];
      UnsentLinger(s, a, unsent, c);
      StepKeepsInv(s, a);
      LingersIffUnsent(Apply(s, a), actions[1..], UnsentAfter(s, a, unsent), c);
    }
  }

  /**
   Main result: an unsettled stop waits with its timer armed or behind its queued ack, never both; and a
   settled one still waits there exactly if its send failed before and nothing has taken it out since.
   */
  lemma StopWaitsInOneWay(actions: seq<Action>, c: CommandId)
    requires IsRun(Initial(), actions) && c in Run(Initial(), actions).stops
    ensures var s := Run(Initial(), actions);
            && (s.stops[c].promise == Pending ==> Armed(s, c) || Queued(s, c))
            && !(Armed(s, c) && Queued(s, c))
            && (c in s.timers || c in s.pendingStops ==> Armed(s, c))
            && (s.stops[c].promise != Pending ==>
                  (Armed(s, c) || Queued(s, c) <==> c in Unsent(Initial(), actions, {})))
  {
    RunKeepsInv(Initial(), actions);
    assert CommandAgrees(Run(Initial(), actions), c);
    LingersIffUnsent(Initial(), actions, {}, c);
  }

  /** A failed send leaves its stop rejected with the timer armed, and an ack even queues it as confirmed. */
  lemma RejectedStopStillWaits()
    ensures var sent := [Dispatch("r"), OwnershipKnown(0, true, 7), SendReturned(0, false)];
            && IsRun(Initial(), sent) && IsRun(Initial(), sent + [AckArrives(7, true)])
            && var s := Run(Initial(), sent);
               var t := Run(Initial(), sent + [AckArrives(7, true)]);
            && 7 in s.stops && s.stops[7].promise == Rejected && Armed(s, 7)
            && 7 in t.stops && t.stops[7].promise == Rejected && Queued(t, 7) && 7 in t.confirmed
  {
    var a, b, c, d := Dispatch("r"), OwnershipKnown(0, true, 7), SendReturned(0, false), AckArrives(7, true);
    var s := Apply(Apply(Apply(Initial(), a), b), c);
    RunOfThree(Initial(), a, b, c, []);
    RunOfThree(Initial(), a, b, c, [d]);
    assert [a, b, c] + [] == [a, b, c] && [a, b, c] + [d] == [a, b, c, d];
    assert [d][1..] == [] && IsRun(s, [d]) && Run(s, [d]) == Apply(s, d);
  }

  /** The first step of a run. */
  lemma Follows(s: State, a: Action, rest: seq<Action>)
    requires Possible(s, a) && IsRun(Apply(s, a), rest)
    ensures IsRun(s, [a] + rest) && Run(s, [a] + rest) == Run(Apply(s, a), rest)
  {
    assert ([a] + rest)[1..] == rest;
  }

  lemma RunOfThree(s: State, a: Action, b: Action, c: Action, rest: seq<Action>)
    requires Possible(s, a) && Possible(Apply(s, a), b) && Possible(Apply(Apply(s, a), b), c)
    requires IsRun(Apply(Apply(Apply(s, a), b), c), rest)
    ensures IsRun(s, [a, b, c] + rest)
    ensures Run(s, [a, b, c] + rest) == Run(Apply(Apply(Apply(s, a), b), c), rest)
  {
    Follows(Apply(Apply(s, a), b), c, rest);
    Follows(Apply(s, a), b, [c] + rest);
    Follows(s, a, [b] + ([c] + rest));
    assert [a, b, c] + rest == [a] + ([b] + ([c] + rest));
  }

  /** At most one stop per run is awaited in one binding. */
  lemma OneAwaitedStopPerRun(actions: seq<Action>, c: CommandId, d: CommandId)
    requires IsRun(Initial(), actions)
    requires var s := Run(Initial(), actions);
             && c in s.stops && s.stops[c].promise == Pending && d in s.stops && s.stops[d].promise == Pending
             && s.stops[c].run == s.stops[d].run
    ensures c == d
  {
    RunKeepsInv(Initial(), actions);
    assert CommandAgrees(Run(Initial(), actions), c) && CommandAgrees(Run(Initial(), actions), d);
  }

  /** An event is processed once the chain has passed the place where it was put. */
  predicate Processed(s: State, n: nat) {
    n < |s.eventAt| && s.eventAt[n] < s.done
  }

  /**
   Main result: a call resolves only through one stop of its own run that the node accepted, and
   only after every event received before that acceptance has been processed.
   */
  lemma ResolvedCallWasConfirmed(actions: seq<Action>, k: CallId)
    requires IsRun(Initial(), actions)
    requires k in Run(Initial(), actions).results && Run(Initial(), actions).results[k].Some?
    ensures var s := Run(Initial(), actions);
            var c := s.results[k].value;
            && k in s.asked && c in s.stops && s.stops[c].run == s.asked[k] && c in s.confirmed
            && c in s.marks && forall n: nat | n < s.marks[c] :: Processed(s, n)
  {
    RunKeepsInv(Initial(), actions);
    var s := Run(Initial(), actions);
    var c := s.results[k].value;
    assert CallAgrees(s, k) && CommandAgrees(s, c) && MarkAgrees(s, c);
  }

  /** The mark counts the events received before the ack, and events are processed one by one in order of arrival. */
  lemma MarkCountsEarlierEvents(s: State, c: CommandId, accepted: bool, m: nat, n: nat)
    requires Inv(s) && Armed(s, c) && !s.closed
    ensures OnAck(s, c, accepted).marks[c] == |s.eventAt|
    ensures m < n && Processed(s, n) ==> Processed(s, m)
  {
    assert EventAgrees(s, n);
  }

  /**
   What may settle stop `c`: its own timer, its own failed send, the close, or its own ack when the chain
   reaches it.
   */
  predicate MaySettle(s: State, a: Action, c: CommandId)
    requires Possible(s, a)
  {
    match a
    case TimerFires(d) => d == c
    case SendReturned(k, ok) => !ok && s.calls[k].command == c
    case Close => Armed(s, c)
    case TailAdvances(_) => s.chain[s.done].Settle? && s.chain[s.done].command == c
    case _ => false
  }

  /**
   How step `a` from `s` to `t` treats command `c`: a settled stop never changes, an unsettled
   one changes only by its own doing and resolves only by its own acceptance; a stop appears
   only for the call whose ownership check found no other, and is confirmed only by its own ack.
   */
  ghost predicate ByItsOwn(s: State, a: Action, t: State, c: CommandId)
    requires Possible(s, a)
  {
    && (c in s.stops ==> c in t.stops && t.stops[c].run == s.stops[c].run)
    && (c in s.stops && t.stops[c] != s.stops[c] ==>
          && s.stops[c].promise == Pending && MaySettle(s, a, c)
          && (t.stops[c].promise == Resolved ==> a == TailAdvances(true) && s.chain[s.done] == Settle(c, true)))
    && (c in t.stops && c !in s.stops ==>
          && a.OwnershipKnown? && a.owns && a.command == c && s.calls[a.call].run !in s.stoppingRuns
          && t.stops[c] == Stop(Pending, s.calls[a.call].run, a.call))
    && (c in t.confirmed ==> c in s.confirmed || (a == AckArrives(c, true) && c in s.stops))
  }

  lemma DispatchActsOnItsOwn(s: State, run: RunId, c: CommandId)
    requires CommandAgrees(s, c) && Possible(s, Dispatch(run))
    ensures ByItsOwn(s, Dispatch(run), OnDispatch(s, run), c)
  {}

  lemma OwnershipActsOnItsOwn(s: State, k: CallId, owns: bool, d: CommandId, c: CommandId)
    requires CommandAgrees(s, c) && Possible(s, OwnershipKnown(k, owns, d))
    ensures ByItsOwn(s, OwnershipKnown(k, owns, d), OnOwnership(s, k, owns, d), c)
  {}

  lemma SendActsOnItsOwn(s: State, k: CallId, ok: bool, c: CommandId)
    requires CommandAgrees(s, c) && Possible(s, SendReturned(k, ok))
    ensures ByItsOwn(s, SendReturned(k, ok), OnSent(s, k, ok), c)
  {}

  lemma ReturnActsOnItsOwn(s: State, k: CallId, c: CommandId)
    requires CommandAgrees(s, c) && Possible(s, CallReturns(k))
    ensures ByItsOwn(s, CallReturns(k), OnReturn(s, k), c)
  {}

  lemma TimerActsOnItsOwn(s: State, d: CommandId, c: CommandId)
    requires CommandAgrees(s, c) && Possible(s, TimerFires(d))
    ensures ByItsOwn(s, TimerFires(d), OnTimer(s, d), c)
  {}

  lemma AckActsOnItsOwn(s: State, d: CommandId, accepted: bool, c: CommandId)
    requires CommandAgrees(s, c) && Possible(s, AckArrives(d, accepted))
    ensures ByItsOwn(s, AckArrives(d, accepted), OnAck(s, d, accepted), c)
  {}

  lemma EventActsOnItsOwn(s: State, c: CommandId)
    requires CommandAgrees(s, c) && Possible(s, EventArrives)
    ensures ByItsOwn(s, EventArrives, OnEvent(s), c)
  {}

  lemma TailActsOnItsOwn(s: State, owns: bool, c: CommandId)
    requires CommandAgrees(s, c) && Possible(s, TailAdvances(owns))
    ensures ByItsOwn(s, TailAdvances(owns), OnTail(s, owns), c)
  {
    if c in s.stops { FinishChanges(s.stops, s.chain[s.done], owns, c); }
  }

  lemma CloseActsOnItsOwn(s: State, c: CommandId)
    requires CommandAgrees(s, c) && Possible(s, Close)
    ensures ByItsOwn(s, Close, OnClose(s), c)
  {}

  /**
   Main result: whatever happens, each stop is created, confirmed and settled only by its own doing, and
   settled once.
   */
  lemma StopsActOnTheirOwn(s: State, a: Action, c: CommandId)
    requires Inv(s) && Possible(s, a)
    ensures ByItsOwn(s, a, Apply(s, a), c)
  {
    assert CommandAgrees(s, c);
    match a
    case Dispatch(run) => DispatchActsOnItsOwn(s, run, c);
    case OwnershipKnown(k, owns, d) => OwnershipActsOnItsOwn(s, k, owns, d, c);
    case SendReturned(k, ok) => SendActsOnItsOwn(s, k, ok, c);
    case CallReturns(k) => ReturnActsOnItsOwn(s, k, c);
    case TimerFires(d) => TimerActsOnItsOwn(s, d, c);
    case AckArrives(d, accepted) => AckActsOnItsOwn(s, d, accepted, c);
    case EventArrives => EventActsOnItsOwn(s, c);
    case TailAdvances(owns) => TailActsOnItsOwn(s, owns, c);
    case Close => CloseActsOnItsOwn(s, c);
  }

  /** The ack of a stop that has timed out or been closed is ignored altogether. */
  lemma LateAckChangesNothing(s: State, c: CommandId, accepted: bool)
    requires Inv(s) && !Armed(s, c)
    ensures OnAck(s, c, accepted) == s
  {
    assert CommandAgrees(s, c);
  }

  // ---------------------------------------------------------------- after a close

  predicate SameChain(s: State, t: State) {
    t.closed == s.closed && t.chain == s.chain && t.settleAt == s.settleAt && t.confirmed == s.confirmed
  }

  /** The steps of calls touch neither the flag nor the settlements on the chain. */
  lemma OwnershipLeavesChain(s: State, k: CallId, owns: bool, d: CommandId)
    requires Possible(s, OwnershipKnown(k, owns, d))
    ensures SameChain(s, OnOwnership(s, k, owns, d))
  {}

  lemma ReturnLeavesChain(s: State, k: CallId)
    requires Possible(s, CallReturns(k))
    ensures SameChain(s, OnReturn(s, k))
  {}

  lemma SentLeavesChain(s: State, k: CallId, ok: bool)
    requires Possible(s, SendReturned(k, ok))
    ensures SameChain(s, OnSent(s, k, ok))
  {}

  lemma ClosedStep(s: State, a: Action)
    requires s.closed && Possible(s, a)
    ensures Apply(s, a).closed && Apply(s, a).settleAt == s.settleAt
  {
    match a
    case OwnershipKnown(k, owns, d) => OwnershipLeavesChain(s, k, owns, d);
    case SendReturned(k, ok) => SentLeavesChain(s, k, ok);
    case CallReturns(k) => ReturnLeavesChain(s, k);
    case _ =>
  }

  /** From a state to a later one: a settled stop is there unchanged. */
  predicate KeepsSettled(s: State, t: State, c: CommandId) {
    c in s.stops ==> c in t.stops && (s.stops[c].promise != Pending ==> t.stops[c] == s.stops[c])
  }

  lemma StepKeepsSettled(s: State, a: Action, c: CommandId)
    requires Inv(s) && Possible(s, a)
    ensures KeepsSettled(s, Apply(s, a), c)
  {
    StopsActOnTheirOwn(s, a, c);
  }

  /** A closed binding takes in no ack, and what has settled stays settled. */
  lemma {:induction false} ClosedRun(s: State, actions: seq<Action>, c: CommandId)
    requires Inv(s) && s.closed && IsRun(s, actions)
    ensures Run(s, actions).closed && Run(s, actions).settleAt == s.settleAt && KeepsSettled(s, Run(s, actions), c)
    decreases actions
  {
    if actions != [] {
      ClosedStep(s, actions[0]);
      StepKeepsSettled(s, actions[0], c);
      StepKeepsInv(s, actions[0]);
      ClosedRun(Apply(s, actions[0]), actions[1..], c);
    }
  }

  /**
   Main result for `close`: at any time after it, an unsettled stop has its ack already queued if it was there at
   the close, and otherwise was created by an ownership query that finished later; such a stop waits for its own
   timer or failed send and never resolves.
   */
  lemma AfterCloseOnlyQueuedStopsResolve(before: seq<Action>, after: seq<Action>, c: CommandId)
    requires IsRun(Initial(), before) && IsRun(OnClose(Run(Initial(), before)), after)
    requires c in Run(OnClose(Run(Initial(), before)), after).stops
    ensures var s, t := Run(Initial(), before), Run(OnClose(Run(Initial(), before)), after);
            && (t.stops[c].promise == Pending ==> if c in s.stops then Queued(t, c) else Armed(t, c))
            && (c !in s.stops ==> t.stops[c].promise != Resolved)
  {
    var s := Run(Initial(), before);
    var u := OnClose(s);
    RunKeepsInv(Initial(), before);
    StepKeepsInv(s, Close);
    RunKeepsInv(u, after);
    ClosedRun(u, after, c);
    assert CommandAgrees(s, c) && CommandAgrees(u, c) && CommandAgrees(Run(u, after), c);
  }

  /** The second case occurs: the ownership query of a call is still out when the binding closes. */
  lemma StopCreatedAfterClose()
    ensures var actions := [Dispatch("r"), Close, OwnershipKnown(0, true, 7)];
            && IsRun(Initial(), actions)
            && var t := Run(Initial(), actions);
            t.closed && 7 in t.stops && t.stops[7].promise == Pending && Armed(t, 7)
  {
    RunOfThree(Initial(), Dispatch("r"), Close, OwnershipKnown(0, true, 7), []);
    EmptyIsNeutral([Dispatch("r"), Close, OwnershipKnown(0, true, 7)]);
  }

  /** Closing leaves no stop waiting for an ack that can no longer come. */
  lemma CloseSettlesEveryWaitingStop(s: State)
    requires Inv(s)
    ensures var t := OnClose(s); forall c | c in t.stops && t.stops[c].promise == Pending :: Queued(t, c)
  {
    forall c | c in OnClose(s).stops && OnClose(s).stops[c].promise == Pending ensures Queued(OnClose(s), c) {
      assert CommandAgrees(s, c);
    }
  }
}
