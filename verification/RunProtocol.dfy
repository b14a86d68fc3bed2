/**
 Server and node together. Bindings come and go as the node reconnects; every stop
 command they send may reach the node any number of times, in any order or never, and
 so may every acknowledgement on its way back. Starts and resumes are unrestricted.
 */
module RunProtocol {
  import opened Common
  import NodeRun
  import StopDispatch
  import StopOutcomes

  type RunId = string
  type CommandId = nat

  /** `sent` are the stop commands ever sent with their run, `others` the ids of all other commands. */
  datatype System = System(
    node: map<RunId, NodeRun.State>, bindings: map<nat, StopDispatch.State>,
    sent: map<CommandId, RunId>, others: set<CommandId>)

  function Initial(): System {
    System(map[], map[], map[], {})
  }

  /** The node's state for a run; a run never heard of has the initial one. */
  function At(y: System, r: RunId): NodeRun.State {
    if r in y.node then y.node[r] else NodeRun.Initial()
  }

  datatype Action =
    | OpenBinding(binding: nat)
    | OtherCommand(command: CommandId)
    | AtBinding(binding: nat, action: StopDispatch.Action)
    | AtNode(run: RunId, move: NodeRun.Action)
    | DeliverAck(binding: nat, run: RunId, reply: NodeRun.Reply)

  /** A command id is drawn once, for one command of one kind. */
  predicate Fresh(y: System, c: CommandId) {
    c !in y.sent && c !in y.others
  }

  predicate Creates(b: StopDispatch.State, a: StopDispatch.Action) {
    StopDispatch.Possible(b, a) && a.OwnershipKnown? && a.owns && b.calls[a.call].run !in b.stoppingRuns
  }

  predicate Possible(y: System, a: Action) {
    match a
    case OpenBinding(b) => b !in y.bindings
    case OtherCommand(c) => Fresh(y, c)
    case AtBinding(b, x) =>
      b in y.bindings && !x.AckArrives? && StopDispatch.Possible(y.bindings[b], x)
          && (x.OwnershipKnown? ==> Fresh(y, x.command))
    case AtNode(r, x) =>
      && NodeRun.Scheduled(At(y, r), x)
      && (x.DispatchStop? ==> x.command in y.sent && y.sent[x.command] == r)
      && (x.DispatchStart? || x.DispatchResume? ==> x.command in y.others)
    case DeliverAck(b, r, reply) => b in y.bindings && reply in At(y, r).replies
  }

  function AckOf(reply: NodeRun.Reply): StopDispatch.Action {
    StopDispatch.AckArrives(reply.command, reply.verdict == NodeRun.Accept)
  }

  function Apply(y: System, a: Action): System
    requires Possible(y, a)
  {
    match a
    case OpenBinding(b) => y.(bindings := y.bindings[b := StopDispatch.Initial()])
    case OtherCommand(c) => y.(others := y.others + {c})
    case AtBinding(b, x) =>
      y.(bindings := y.bindings[b := StopDispatch.Apply(y.bindings[b], x)],
         sent := if Creates(y.bindings[b], x) then y.sent[x.command := y.bindings[b].calls[x.call].run] else y.sent)
    case AtNode(r, x) => y.(node := y.node[r := NodeRun.Apply(At(y, r), x)])
    case DeliverAck(b, _, reply) => y.(bindings := y.bindings[b := StopDispatch.Apply(y.bindings[b], AckOf(reply))])
  }

  predicate IsRun(y: System, actions: seq<Action>)
    decreases actions
  {
    actions == [] || (Possible(y, actions[0]) && IsRun(Apply(y, actions[0]), actions[1..]))
  }

  function Run(y: System, actions: seq<Action>): System
    requires IsRun(y, actions)
    decreases actions
  {
    if actions == [] then y else Run(Apply(y, actions[0]), actions[1..])
  }

  // ---------------------------------------------------------------- who answers which command

  predicate StopTask(pc: NodeRun.Pc) {
    pc.StopAwaitingStart? || pc.StopAwaitingReady? || pc.StoppingAdapter? || pc.StoppingOwned?
  }

  predicate OtherTask(pc: NodeRun.Pc) {
    || pc.Materializing? || pc.AdapterStarting? || pc.Preparing? || pc.OwnedStarting? || pc.AwaitingReady?
          || pc.AwaitingStart?
    || pc.ResumeAwaitingStart? || pc.ResumeAwaitingReady? || pc.Inspecting?
  }

  ghost predicate TaskKnown(y: System, r: RunId, pc: NodeRun.Pc) {
    && (StopTask(pc) ==> pc.command in y.sent && y.sent[pc.command] == r)
    && (OtherTask(pc) ==> pc.command in y.others)
  }

  ghost predicate ReplyKnown(y: System, r: RunId, reply: NodeRun.Reply) {
    if reply.handler == NodeRun.StopHandler then reply.command in y.sent && y.sent[reply.command] == r
    else reply.command in y.others
  }

  ghost predicate NodeAgrees(y: System, r: RunId) {
    var s := At(y, r);
    && NodeRun.Inv(s)
    && (forall t | t in s.tasks :: TaskKnown(y, r, s.tasks[t]))
    && (forall reply | reply in s.replies :: ReplyKnown(y, r, reply))
  }

  /** A binding knows only stops it sent, and takes as confirmed only what the node accepted. */
  ghost predicate StopAgrees(y: System, b: StopDispatch.State, c: CommandId) {
    && (c in b.stops ==> c in y.sent && y.sent[c] == b.stops[c].run)
    && (c in b.confirmed ==> c in y.sent && NodeRun.StopAccepted(At(y, y.sent[c]), c))
  }

  ghost predicate BindingAgrees(y: System, b: nat) {
    b in y.bindings ==>
      && StopDispatch.Inv(y.bindings[b])
      && (forall c: CommandId :: StopAgrees(y, y.bindings[b], c))
  }

  ghost predicate Inv(y: System) {
    && (forall c | c in y.sent :: c !in y.others)
    && (forall r: RunId :: NodeAgrees(y, r))
    && (forall b: nat :: BindingAgrees(y, b))
  }

  lemma InitialInv()
    ensures Inv(Initial())
  {
    forall r: RunId ensures NodeAgrees(Initial(), r) { assert NodeRun.Inv(At(Initial(), r)); }
  }

  /** Knowing more commands and more replies keeps what was known. */
  ghost predicate Grows(y: System, z: System) {
    && y.others <= z.others
    && (forall c | c in y.sent :: c in z.sent && z.sent[c] == y.sent[c])
    && (forall r: RunId :: At(y, r).replies <= At(z, r).replies)
  }

  lemma NodeKeepsAgreeing(y: System, z: System, r: RunId)
    requires NodeAgrees(y, r) && Grows(y, z) && At(z, r) == At(y, r)
    ensures NodeAgrees(z, r)
  {
    var s := At(y, r);
    forall t | t in s.tasks ensures TaskKnown(z, r, s.tasks[t]) { assert TaskKnown(y, r, s.tasks[t]); }
    forall reply | reply in s.replies ensures ReplyKnown(z, r, reply) { assert ReplyKnown(y, r, reply); }
  }

  lemma BindingKeepsAgreeing(y: System, z: System, b: nat)
    requires BindingAgrees(y, b) && Grows(y, z) && b in y.bindings && b in z.bindings && z.bindings[b] == y.bindings[b]
    ensures BindingAgrees(z, b)
  {
    forall c: CommandId ensures StopAgrees(z, z.bindings[b], c) { assert StopAgrees(y, y.bindings[b], c); }
  }

  /** What a node move adds answers the command it was given. */
  lemma NodeMoveAnswersItsCommand(s: NodeRun.State, x: NodeRun.Action)
    requires NodeRun.Inv(s) && NodeRun.Scheduled(s, x) && !x.WriterExits?
    ensures var t := NodeRun.Apply(s, x);
            var me := if x.Continue? then x.task else s.next;
            var m := NodeRun.MoveOf(s, x);
            && (forall k | k in t.tasks && k != me :: k in s.tasks && t.tasks[k] == s.tasks[k])
            && t.replies == s.replies + (if m.reply.Some? then {m.reply.value} else {})
            && (me in t.tasks ==> m.next == Some(t.tasks[me]))
  {}

  lemma ContinuationKeepsKind(s: NodeRun.State, x: NodeRun.Action)
    requires NodeRun.Inv(s) && NodeRun.Scheduled(s, x) && x.Continue?
    ensures var m := NodeRun.MoveOf(s, x);
            var pc := s.tasks[x.task];
            && (m.next.Some? && StopTask(m.next.value) ==> StopTask(pc) && m.next.value.command == pc.command)
            && (m.next.Some? && OtherTask(m.next.value) ==> OtherTask(pc) && m.next.value.command == pc.command)
            && (m.reply.Some? && m.reply.value.handler == NodeRun.StopHandler ==>
                  StopTask(pc) && m.reply.value.command == pc.command)
            && (m.reply.Some? && m.reply.value.handler != NodeRun.StopHandler ==>
                  OtherTask(pc) && m.reply.value.command == pc.command)
  {
    assert s.tasks[x.task] in s.tasks.Values;
  }

  /** The move's own next task and reply are for commands the network knows. */
  lemma NodeMoveIsKnown(y: System, r: RunId, x: NodeRun.Action)
    requires NodeAgrees(y, r) && Possible(y, AtNode(r, x)) && !x.WriterExits?
    ensures var m, z := NodeRun.MoveOf(At(y, r), x), Apply(y, AtNode(r, x));
            && (m.next.Some? ==> TaskKnown(z, r, m.next.value))
            && (m.reply.Some? ==> ReplyKnown(z, r, m.reply.value))
  {
    var s := At(y, r);
    NodeMoveAnswersItsCommand(s, x);
    if x.Continue? {
      ContinuationKeepsKind(s, x);
      assert TaskKnown(y, r, s.tasks[x.task]);
    }
  }

  lemma NodeStepKeepsKnown(y: System, r: RunId, x: NodeRun.Action)
    requires NodeAgrees(y, r) && Possible(y, AtNode(r, x)) && !x.WriterExits?
    ensures var z := Apply(y, AtNode(r, x));
            var t := NodeRun.Apply(At(y, r), x);
            && (forall k | k in t.tasks :: TaskKnown(z, r, t.tasks[k]))
            && (forall reply | reply in t.replies :: ReplyKnown(z, r, reply))
  {
    var s, z := At(y, r), Apply(y, AtNode(r, x));
    var t := NodeRun.Apply(s, x);
    NodeMoveIsKnown(y, r, x);
    forall k | k in t.tasks ensures TaskKnown(z, r, t.tasks[k]) {
      if k in s.tasks { assert TaskKnown(y, r, s.tasks[k]); }
    }
    forall reply | reply in t.replies ensures ReplyKnown(z, r, reply) {
      if reply in s.replies { assert ReplyKnown(y, r, reply); }
    }
  }

  lemma NodeStepKeepsNode(y: System, r: RunId, x: NodeRun.Action)
    requires NodeAgrees(y, r) && Possible(y, AtNode(r, x))
    ensures NodeAgrees(Apply(y, AtNode(r, x)), r)
    ensures At(y, r).replies <= At(Apply(y, AtNode(r, x)), r).replies
  {
    var s, z := At(y, r), Apply(y, AtNode(r, x));
    assert At(z, r) == NodeRun.Apply(s, x);
    NodeRun.StepKeepsInv(s, x);
    NodeRun.StepAdvances(s, x);
    if x.WriterExits? { NodeKeepsAgreeing(y, z.(node := y.node), r); } else { NodeStepKeepsKnown(y, r, x); }
  }

  lemma NodeStepKeepsInv(y: System, a: Action)
    requires Inv(y) && Possible(y, a) && a.AtNode?
    ensures Inv(Apply(y, a)) && Grows(y, Apply(y, a))
  {
    var z := Apply(y, a);
    assert NodeAgrees(y, a.run);
    NodeStepKeepsNode(y, a.run, a.move);
    forall r: RunId ensures NodeAgrees(z, r) {
      assert NodeAgrees(y, r);
      if r != a.run { NodeKeepsAgreeing(y, z, r); }
    }
    forall b: nat ensures BindingAgrees(z, b) {
      assert BindingAgrees(y, b);
      if b in y.bindings { BindingKeepsAgreeing(y, z, b); }
    }
  }

  lemma BindingStepKeepsInv(y: System, a: Action)
    requires Inv(y) && Possible(y, a) && a.AtBinding?
    ensures Inv(Apply(y, a)) && Grows(y, Apply(y, a))
  {
    var z, s, x := Apply(y, a), y.bindings[a.binding], a.action;
    assert BindingAgrees(y, a.binding);
    StopDispatch.StepKeepsInv(s, x);
    forall r: RunId ensures NodeAgrees(z, r) { assert NodeAgrees(y, r); NodeKeepsAgreeing(y, z, r); }
    forall b: nat ensures BindingAgrees(z, b) {
      assert BindingAgrees(y, b);
      if b in y.bindings && b != a.binding { BindingKeepsAgreeing(y, z, b); }
      if b == a.binding {
        forall c: CommandId ensures StopAgrees(z, z.bindings[b], c) {
          assert StopAgrees(y, s, c);
          StopDispatch.StopsActOnTheirOwn(s, x, c);
        }
      }
    }
  }

  lemma AckKeepsInv(y: System, a: Action)
    requires Inv(y) && Possible(y, a) && a.DeliverAck?
    ensures Inv(Apply(y, a)) && Grows(y, Apply(y, a))
  {
    var z, s, x := Apply(y, a), y.bindings[a.binding], AckOf(a.reply);
    assert BindingAgrees(y, a.binding) && NodeAgrees(y, a.run) && ReplyKnown(y, a.run, a.reply);
    StopDispatch.StepKeepsInv(s, x);
    forall r: RunId ensures NodeAgrees(z, r) { assert NodeAgrees(y, r); NodeKeepsAgreeing(y, z, r); }
    forall b: nat ensures BindingAgrees(z, b) {
      assert BindingAgrees(y, b);
      if b in y.bindings && b != a.binding { BindingKeepsAgreeing(y, z, b); }
      if b == a.binding {
        forall c: CommandId ensures StopAgrees(z, z.bindings[b], c) {
          assert StopAgrees(y, s, c);
          StopDispatch.StopsActOnTheirOwn(s, x, c);
        }
      }
    }
  }

  lemma StepKeepsInv(y: System, a: Action)
    requires Inv(y) && Possible(y, a)
    ensures Inv(Apply(y, a)) && Grows(y, Apply(y, a))
  {
    match a
    case AtNode(_, _) => NodeStepKeepsInv(y, a);
    case AtBinding(_, _) => BindingStepKeepsInv(y, a);
    case DeliverAck(_, _, _) => AckKeepsInv(y, a);
    case _ =>
      var z := Apply(y, a);
      forall r: RunId ensures NodeAgrees(z, r) { assert NodeAgrees(y, r); NodeKeepsAgreeing(y, z, r); }
      forall b: nat ensures BindingAgrees(z, b) {
        assert BindingAgrees(y, b);
        if b in y.bindings { BindingKeepsAgreeing(y, z, b); }
      }
  }

  lemma {:induction false} RunKeepsInv(y: System, actions: seq<Action>)
    requires Inv(y) && IsRun(y, actions)
    ensures Inv(Run(y, actions)) && Grows(y, Run(y, actions))
    decreases actions
  {
    if actions != [] {
      StepKeepsInv(y, actions[0]);
      RunKeepsInv(Apply(y, actions[0]), actions[1..]);
    }
  }

  // ---------------------------------------------------------------- end to end

  /** The call `k` of binding `b` returned successfully. */
  ghost predicate StopConfirmed(y: System, b: nat, k: StopDispatch.CallId, r: RunId) {
    && b in y.bindings && k in y.bindings[b].results && y.bindings[b].results[k].Some?
    && k in y.bindings[b].asked && y.bindings[b].asked[k] == r
  }

  /** The moves of one run's handlers among everything that happens. */
  function NodeTrace(actions: seq<Action>, r: RunId): seq<NodeRun.Action>
    decreases actions
  {
    if actions == [] then []
    else (if actions[0].AtNode? && actions[0].run == r then [actions[0].move] else []) + NodeTrace(actions[1..], r)
  }

  /** They are a run of that run's own machine. */
  lemma {:induction false} NodeTraceIsARun(y: System, actions: seq<Action>, r: RunId)
    requires IsRun(y, actions)
    ensures var trace := NodeTrace(actions, r);
            NodeRun.IsRun(At(y, r), trace) && NodeRun.Run(At(y, r), trace) == At(Run(y, actions), r)
    decreases actions
  {
    if actions != [] {
      var a, rest := actions[0], NodeTrace(actions[1..], r);
      NodeTraceIsARun(Apply(y, a), actions[1..], r);
      if a.AtNode? && a.run == r {
        NodeRun.Follows(At(y, r), a.move, At(Apply(y, a), r), rest);
      } else {
        OthersLeaveNode(y, a, r);
        EmptyIsNeutral(rest);
      }
    }
  }

  lemma OthersLeaveNode(y: System, a: Action, r: RunId)
    requires Possible(y, a) && !(a.AtNode? && a.run == r)
    ensures At(Apply(y, a), r) == At(y, r)
  {}

  /**
   Main result. Once `dispatchRunStop(r)` has resolved on the server, in every later state of server and node: the node
   accepted exactly the stop this call was waiting for, the run can never be launched again, and the writers still alive
   are exactly those the node's handlers had abandoned and that have neither exited nor been proved gone since.
   */
  lemma ConfirmedStopHolds(actions: seq<Action>, b: nat, k: StopDispatch.CallId, r: RunId)
    requires IsRun(Initial(), actions) && StopConfirmed(Run(Initial(), actions), b, k, r)
    ensures var y := Run(Initial(), actions);
            var c := y.bindings[b].results[k].value;
            && c in y.sent && y.sent[c] == r && NodeRun.StopAccepted(At(y, r), c)
            && NodeRun.Fenced(At(y, r).shared)
    ensures NodeRun.IsRun(NodeRun.Initial(), NodeTrace(actions, r))
    ensures At(Run(Initial(), actions), r).live == NodeRun.Forsaken(NodeRun.Initial(), {}, NodeTrace(actions, r))
  {
    InitialInv();
    RunKeepsInv(Initial(), actions);
    var y := Run(Initial(), actions);
    var s := y.bindings[b];
    var c := s.results[k].value;
    assert BindingAgrees(y, b) && StopDispatch.CallAgrees(s, k) && StopDispatch.CommandAgrees(s, c);
    assert StopAgrees(y, s, c) && NodeAgrees(y, r);
    NodeTraceIsARun(Initial(), actions, r);
    NodeRun.AcceptedStopLeavesTheForsaken(NodeTrace(actions, r), c);
  }

  // ---------------------------------------------------------------- an accepted stop reaches its call

  ghost predicate Verdicts(y: System) {
    forall b | b in y.bindings :: StopOutcomes.VerdictsAgree(y.bindings[b])
  }

  lemma {:induction false} RunKeepsVerdicts(y: System, actions: seq<Action>)
    requires Inv(y) && Verdicts(y) && IsRun(y, actions)
    ensures Inv(Run(y, actions)) && Verdicts(Run(y, actions))
    decreases actions
  {
    if actions != [] {
      var a, z := actions[0], Apply(y, actions[0]);
      StepKeepsInv(y, a);
      forall b | b in z.bindings ensures StopOutcomes.VerdictsAgree(z.bindings[b]) { StepKeepsVerdicts(y, a, b); }
      RunKeepsVerdicts(z, actions[1..]);
    }
  }

  lemma StepKeepsVerdicts(y: System, a: Action, b: nat)
    requires Inv(y) && Verdicts(y) && Possible(y, a) && b in Apply(y, a).bindings
    ensures StopOutcomes.VerdictsAgree(Apply(y, a).bindings[b])
  {
    assert BindingAgrees(y, b);
    if a.AtBinding? && a.binding == b { StopOutcomes.StepKeepsVerdicts(y.bindings[b], a.action); }
    if a.DeliverAck? && a.binding == b { StopOutcomes.StepKeepsVerdicts(y.bindings[b], AckOf(a.reply)); }
  }

  function AtOne(b: nat, xs: seq<StopDispatch.Action>): seq<Action> {
    if xs == [] then [] else [AtBinding(b, xs[0])] + AtOne(b, xs[1..])
  }

  /** What one binding can do by itself, the system can do. */
  lemma {:induction false} BindingRunsAlone(y: System, b: nat, xs: seq<StopDispatch.Action>)
    requires b in y.bindings && StopDispatch.IsRun(y.bindings[b], xs)
    requires forall i | 0 <= i < |xs| :: !xs[i].AckArrives? && !xs[i].OwnershipKnown?
    ensures IsRun(y, AtOne(b, xs))
    ensures var z := Run(y, AtOne(b, xs)); b in z.bindings && z.bindings[b] == StopDispatch.Run(y.bindings[b], xs)
    decreases xs
  {
    if xs != [] {
      var a := AtBinding(b, xs[0]);
      BindingRunsAlone(Apply(y, a), b, xs[1..]);
      assert AtOne(b, xs)[1..] == AtOne(b, xs[1..]);
    }
  }

  /** What follows an accepting ack: the work queued before it, and the turn of the waiting call. */
  function AfterAck(y: System, b: nat, k: StopDispatch.CallId): seq<StopDispatch.Action>
    requires b in y.bindings && y.bindings[b].done <= |y.bindings[b].chain|
  {
    StopOutcomes.Tails(|y.bindings[b].chain| - y.bindings[b].done + 1) + [StopDispatch.CallReturns(k)]
  }

  /**
   Main result, the other direction: from any reachable state in which a call waits for its stop and the node has
   accepted that stop, delivering the acknowledgement and letting the server's own work go on confirms the call.
   */
  lemma AcceptedStopConfirms(actions: seq<Action>, b: nat, k: StopDispatch.CallId, c: CommandId)
    requires IsRun(Initial(), actions) && AwaitsAccepted(Run(Initial(), actions), b, k, c)
    ensures Confirms(Run(Initial(), actions), b, k, c)
  {
    InitialInv();
    RunKeepsVerdicts(Initial(), actions);
    var y := Run(Initial(), actions);
    assert BindingAgrees(y, b);
    AcceptanceConfirms(y, b, k, c);
  }

  /** Call `k` of binding `b` waits for stop `c`, which still waits for its ack, and the node has accepted it. */
  predicate AwaitsAccepted(y: System, b: nat, k: StopDispatch.CallId, c: CommandId) {
    && b in y.bindings && c in y.sent && NodeRun.StopAccepted(At(y, y.sent[c]), c)
    && var s := y.bindings[b];
    && StopOutcomes.TakesAck(s, c) && c in s.stops && s.stops[c].promise == StopDispatch.Pending
    && k in s.calls && (s.calls[k].Awaiting? || s.calls[k].Joined?) && s.calls[k].command == c
  }

  /** Delivering the acknowledgement, and what follows it, is possible and makes the call return that stop. */
  ghost predicate Confirms(y: System, b: nat, k: StopDispatch.CallId, c: CommandId) {
    && b in y.bindings && c in y.sent && y.bindings[b].done <= |y.bindings[b].chain|
    && var more := [DeliverAck(b, y.sent[c], NodeRun.Reply(NodeRun.StopHandler, c, NodeRun.Accept))]
                   + AtOne(b, AfterAck(y, b, k));
       IsRun(y, more) && StopConfirmed(Run(y, more), b, k, y.sent[c])
  }

  lemma AcceptanceConfirms(y: System, b: nat, k: StopDispatch.CallId, c: CommandId)
    requires AwaitsAccepted(y, b, k, c) && BindingAgrees(y, b) && StopOutcomes.VerdictsAgree(y.bindings[b])
    ensures Confirms(y, b, k, c)
  {
    var s, r := y.bindings[b], y.sent[c];
    assert StopAgrees(y, s, c) && StopDispatch.CallAgrees(s, k);
    StopOutcomes.AcceptedStopResolvesItsCall(s, k, c);
    AckIsFollowedUp(y, b, k, c, r);
    StopOutcomes.AskedStays(s, [StopDispatch.AckArrives(c, true)] + AfterAck(y, b, k), k);
  }

  /** The system's steps after the acknowledgement do to the binding what its own would. */
  lemma AckIsFollowedUp(y: System, b: nat, k: StopDispatch.CallId, c: CommandId, r: RunId)
    requires b in y.bindings && y.bindings[b].done <= |y.bindings[b].chain| && NodeRun.StopAccepted(At(y, r), c)
    requires StopDispatch.IsRun(y.bindings[b], [StopDispatch.AckArrives(c, true)] + AfterAck(y, b, k))
    ensures var more := [DeliverAck(b, r, NodeRun.Reply(NodeRun.StopHandler, c, NodeRun.Accept))]
                        + AtOne(b, AfterAck(y, b, k));
            && IsRun(y, more) && b in Run(y, more).bindings
            && Run(y, more).bindings[b] ==
                 StopDispatch.Run(y.bindings[b], [StopDispatch.AckArrives(c, true)] + AfterAck(y, b, k))
  {
    var a := DeliverAck(b, r, NodeRun.Reply(NodeRun.StopHandler, c, NodeRun.Accept));
    var rest := AfterAck(y, b, k);
    assert ([StopDispatch.AckArrives(c, true)] + rest)[1..] == rest;
    BindingRunsAlone(Apply(y, a), b, rest);
    assert ([a] + AtOne(b, rest))[1..] == AtOne(b, rest);
  }

  /** A fenced run stays fenced through any further step of the system, and the adapter is not called for it again. */
  lemma FenceHolds(y: System, a: Action, r: RunId)
    requires Inv(y) && Possible(y, a) && NodeRun.Fenced(At(y, r).shared)
    ensures var z := Apply(y, a);
            && NodeRun.Fenced(At(z, r).shared) && At(z, r).live <= At(y, r).live
            && At(z, r).starts == At(y, r).starts && At(z, r).ownedStarts == At(y, r).ownedStarts
  {
    assert NodeAgrees(y, r);
    if a.AtNode? && a.run == r { NodeRun.StepAdvances(At(y, r), a.move); }
  }

  /** So nothing the server sends afterwards, and nothing the network still delivers, starts the run again. */
  lemma {:induction false} FenceHoldsForever(y: System, actions: seq<Action>, r: RunId)
    requires Inv(y) && IsRun(y, actions) && NodeRun.Fenced(At(y, r).shared)
    ensures var z := Run(y, actions);
            && NodeRun.Fenced(At(z, r).shared) && At(z, r).live <= At(y, r).live
            && At(z, r).starts == At(y, r).starts && At(z, r).ownedStarts == At(y, r).ownedStarts
    decreases actions
  {
    if actions != [] {
      FenceHolds(y, actions[0], r);
      StepKeepsInv(y, actions[0]);
      FenceHoldsForever(Apply(y, actions[0]), actions[1..], r);
    }
  }
}
