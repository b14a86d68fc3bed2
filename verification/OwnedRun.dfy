/**
 A per-run start end to end: the node's handlers of one run (apps/artood/src/node-client.ts) and the
 process adapter's owned admission behind them (apps/artood/src/process-adapter.ts). The node believes
 a closing receipt; here every one of them has to come from the adapter, and it is proved true.
 */
module OwnedRun {
  import NodeRun
  import Process = ProcessLifecycle

  datatype State = State(node: NodeRun.State, process: Process.State)

  function Initial(posix: bool): State {
    State(NodeRun.Initial(), Process.Initial(posix))
  }

  /**
   A move of the node, with the answer of the adapter's ownership checks if it starts the writer, or a step
   of the process.
   */
  datatype Action = AtNode(move: NodeRun.Action, genuine: bool) | AtProcess(step: Process.Action)

  /** The adapter has issued the receipt an awaited operation comes back with. */
  predicate Backed(s: State, move: NodeRun.Action) {
    move.Continue? && move.task in s.node.tasks ==>
      match s.node.tasks[move.task]
      case StoppingOwned(_) => move.input.Succeeded? ==> Process.ConfirmedClosed in s.process.receipts
      case OwnedStreaming => move.input.Succeeded? ==> Process.ConfirmedClosed in s.process.receipts
      case Inspecting(_) =>
        move.input == NodeRun.Inspected(NodeRun.StatusClosed) ==> Process.ConfirmedClosed in s.process.receipts
      case OwnedStarting(_) =>
        && (move.input == NodeRun.StartupFailed(NodeRun.ConfirmedClosed) ==>
              Process.ConfirmedClosed in s.process.receipts)
        && (move.input == NodeRun.StartupFailed(NodeRun.NotSpawned) ==> Process.NotSpawned in s.process.receipts)
      case _ => true
  }

  predicate Possible(s: State, a: Action) {
    match a
    case AtNode(move, _) => NodeRun.Scheduled(s.node, move) && Backed(s, move)
    case AtProcess(step) => !step.StartOwnedRun? && Process.Possible(s.process, step)
  }

  predicate StartsOwned(n: NodeRun.State, move: NodeRun.Action)
    requires NodeRun.Possible(n, move)
  {
    !move.WriterExits? && NodeRun.MoveOf(n, move).call == NodeRun.StartOwnedWriter
  }

  /** `startOwnedRun` is called by the node's move that starts the writer, and by nothing else. */
  function Apply(s: State, a: Action): State
    requires Possible(s, a)
  {
    match a
    case AtNode(move, genuine) =>
      State(NodeRun.Apply(s.node, move),
            if StartsOwned(s.node, move) then Process.OnClaim(s.process, genuine) else s.process)
    case AtProcess(step) => s.(process := Process.Apply(s.process, step))
  }

  predicate IsRun(s: State, actions: seq<Action>)
    decreases actions
  {
    actions == [] || (Possible(s, actions[0]) && IsRun(Apply(s, actions[0]), actions[1..]))
  }

  function Run(s: State, actions: seq<Action>): State
    requires IsRun(s, actions)
    decreases actions
  {
    if actions == [] then s else Run(Apply(s, actions[0]), actions[1..])
  }

  // ---------------------------------------------------------------- the invariant

  /** A closing receipt exists, or the adapter was never called. */
  predicate Proved(p: Process.State) {
    Process.ConfirmedClosed in p.receipts || Process.NotSpawned in p.receipts || !p.inv.claimed
  }

  predicate RecordedClosed(n: NodeRun.State) {
    n.shared.physical.Some? && n.shared.physical.value.confirmedClosed
  }

  /** The adapter is called by the owner's handler only, when it leaves `Preparing`. */
  predicate NotCalledYet(n: NodeRun.State) {
    n.shared.physical.Some? ==>
      n.shared.physical.value.owner in n.tasks && n.tasks[n.shared.physical.value.owner].Preparing?
  }

  ghost predicate Inv(s: State, posix: bool) {
    && NodeRun.Inv(s.node) && Process.Inv(s.process) && s.process.posix == posix
    && (RecordedClosed(s.node) ==> Proved(s.process))
    && (NotCalledYet(s.node) ==> !s.process.inv.claimed)
  }

  lemma ProvedIsGone(p: Process.State)
    requires Process.Inv(p) && Proved(p)
    ensures Process.AllGone(p.posix, p.truth)
  {}

  lemma ProcessStepLeaves(p: Process.State, x: Process.Action)
    requires Process.Possible(p, x) && !x.StartOwnedRun?
    ensures Process.Apply(p, x).posix == p.posix && Process.Apply(p, x).inv.claimed == p.inv.claimed
    ensures Proved(p) ==> Proved(Process.Apply(p, x))
  {}

  /** A record becomes closed by a receipt, or by a preparation that failed before the adapter was called. */
  lemma ClosesByReceipt(s: State, move: NodeRun.Action)
    requires NodeRun.Inv(s.node) && NodeRun.Scheduled(s.node, move) && Backed(s, move) && !RecordedClosed(s.node)
    requires NotCalledYet(s.node) ==> !s.process.inv.claimed
    requires RecordedClosed(NodeRun.Apply(s.node, move))
    ensures Proved(s.process) && !StartsOwned(s.node, move)
  {}

  /** A record stays closed, and after that the adapter is never called. */
  lemma ClosedNeverStarts(n: NodeRun.State, move: NodeRun.Action)
    requires NodeRun.Inv(n) && NodeRun.Scheduled(n, move) && RecordedClosed(n)
    ensures !StartsOwned(n, move)
  {}

  /** The adapter is called out of `Preparing` only. */
  lemma CalledFromPreparing(n: NodeRun.State, move: NodeRun.Action)
    requires NodeRun.Inv(n) && NodeRun.Scheduled(n, move) && NotCalledYet(NodeRun.Apply(n, move))
    ensures NotCalledYet(n) && !StartsOwned(n, move)
  {}

  lemma NodeKeepsInv(s: State, move: NodeRun.Action, genuine: bool, posix: bool)
    requires Inv(s, posix) && Possible(s, AtNode(move, genuine))
    ensures Inv(Apply(s, AtNode(move, genuine)), posix)
  {
    var t := Apply(s, AtNode(move, genuine));
    NodeRun.StepKeepsInv(s.node, move);
    if StartsOwned(s.node, move) { Process.StepKeepsInv(s.process, Process.StartOwnedRun(genuine)); }
    if RecordedClosed(s.node) { ClosedNeverStarts(s.node, move); }
    else if RecordedClosed(t.node) { ClosesByReceipt(s, move); }
    if NotCalledYet(t.node) { CalledFromPreparing(s.node, move); }
  }

  lemma {:induction false} RunKeepsInv(s: State, actions: seq<Action>, posix: bool)
    requires Inv(s, posix) && IsRun(s, actions)
    ensures Inv(Run(s, actions), posix)
    decreases actions
  {
    if actions != [] {
      match actions[0] {
        case AtNode(move, genuine) => NodeKeepsInv(s, move, genuine, posix);
        case AtProcess(step) => Process.StepKeepsInv(s.process, step); ProcessStepLeaves(s.process, step);
      }
      RunKeepsInv(Apply(s, actions[0]), actions[1..], posix);
    }
  }

  /**
   Main result: when the node's record of a per-run start says closed, and so whenever a stop of such a run was
   accepted, nothing of the writer exists any more, at that moment and in every later state: no child, no pipes,
   no guardian, and on POSIX no member of either process group.
   */
  lemma ClosedMeansGone(posix: bool, actions: seq<Action>, c: NodeRun.CommandId)
    requires IsRun(Initial(posix), actions)
    ensures var s := Run(Initial(posix), actions);
            RecordedClosed(s.node) || (NodeRun.StopAccepted(s.node, c) && s.node.shared.physical.Some?)
            ==> Process.AllGone(posix, s.process.truth)
  {
    assert NodeRun.Inv(Initial(posix).node);
    RunKeepsInv(Initial(posix), actions, posix);
    var s := Run(Initial(posix), actions);
    if RecordedClosed(s.node) || (NodeRun.StopAccepted(s.node, c) && s.node.shared.physical.Some?) {
      ProvedIsGone(s.process);
    }
  }
}
